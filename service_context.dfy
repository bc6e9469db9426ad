/** The service store of src/contexts/ServiceContext.tsx: a reducer over a flat list
    of services, the provider operations that dispatch to it, and the dashboard
    counts. Timestamps and generated ids are parameters; each provider operation
    is one sequential step (the simulated network delay is dropped). */
module ServiceContext {
  import opened Types
  import opened Seqs

  // ---- Partial<Service> ----

  /** One key of a `Partial<Service>`: absent (Keep) or present with a value (Set).
      For an optional field the value is itself an Option, because spreading
      `{doctorId: undefined}` overwrites the field with undefined. */
  datatype Patch<T> = Keep | Set(value: T) {
    function Apply(current: T): T {
      if Set? then value else current
    }
  }

  /** The keys of `Partial<Service>` (updatedAt is left out: the reducer always
      overwrites it). */
  datatype ServicePatch = ServicePatch(
    id: Patch<string>,
    serviceType: Patch<ServiceType>,
    status: Patch<ServiceStatus>,
    patientName: Patch<string>,
    patientPhone: Patch<string>,
    patientAddress: Patch<string>,
    requestedDate: Patch<Date>,
    scheduledDate: Patch<Option<Date>>,
    completedDate: Patch<Option<Date>>,
    coordinatorId: Patch<string>,
    doctorId: Patch<Option<string>>,
    nurseId: Patch<Option<string>>,
    notes: Patch<string>,
    vitalSigns: Patch<Option<seq<VitalSigns>>>,
    medicalReport: Patch<Option<MedicalReport>>,
    createdAt: Patch<Date>)

  /** The empty object `{}`. */
  const NoChanges: ServicePatch :=
    ServicePatch(Keep, Keep, Keep, Keep, Keep, Keep, Keep, Keep, Keep, Keep, Keep, Keep, Keep, Keep, Keep, Keep)

  /** `{ ...service, ...updates, updatedAt: now }`. */
  function Merge(s: Service, u: ServicePatch, now: Date): (r: Service)
    ensures r.updatedAt == now
    ensures u == NoChanges ==> r == s.(updatedAt := now)
  {
    Service(
      u.id.Apply(s.id), u.serviceType.Apply(s.serviceType), u.status.Apply(s.status),
      u.patientName.Apply(s.patientName), u.patientPhone.Apply(s.patientPhone),
      u.patientAddress.Apply(s.patientAddress), u.requestedDate.Apply(s.requestedDate),
      u.scheduledDate.Apply(s.scheduledDate), u.completedDate.Apply(s.completedDate),
      u.coordinatorId.Apply(s.coordinatorId), u.doctorId.Apply(s.doctorId),
      u.nurseId.Apply(s.nurseId), u.notes.Apply(s.notes), u.vitalSigns.Apply(s.vitalSigns),
      u.medicalReport.Apply(s.medicalReport), u.createdAt.Apply(s.createdAt),
      now)
  }

  /** The UPDATE_SERVICE map: every service with the given id is merged, every
      other one is kept; length and order do not change. */
  function UpdateById(services: seq<Service>, id: string, u: ServicePatch, now: Date): (r: seq<Service>)
    ensures |r| == |services|
    ensures forall i :: 0 <= i < |services| && services[i].id != id ==> r[i] == services[i]
    ensures forall i :: 0 <= i < |services| && services[i].id == id ==> r[i] == Merge(services[i], u, now)
  {
    seq(|services|, i requires 0 <= i < |services| =>
      if services[i].id == id then Merge(services[i], u, now) else services[i])
  }

  /** An id that no service carries changes nothing. */
  lemma UpdateUnknownId(services: seq<Service>, id: string, u: ServicePatch, now: Date)
    requires forall i :: 0 <= i < |services| ==> services[i].id != id
    ensures UpdateById(services, id, u, now) == services
  {
  }

  // ---- The reducer ----

  datatype ServiceState = ServiceState(services: seq<Service>, isLoading: bool, error: Option<string>)

  /** `initialState`. */
  const InitialState := ServiceState([], false, None)

  datatype ServiceAction =
    | SetLoading(loading: bool)
    | SetError(message: Option<string>)
    | SetServices(all: seq<Service>)
    | AddService(service: Service)
    | UpdateService(id: string, updates: ServicePatch)
    | ClearError

  /** `serviceReducer`; `now` is the `new Date()` that UPDATE_SERVICE reads. */
  function Reduce(st: ServiceState, a: ServiceAction, now: Date): (r: ServiceState)
    ensures (a.SetLoading? || a.SetError? || a.ClearError?) ==> r.services == st.services
    ensures a.SetLoading? ==> r.isLoading == a.loading
    ensures !a.SetLoading? ==> r.isLoading == st.isLoading
    ensures a.SetError? ==> r.error == a.message
    ensures a.ClearError? ==> r.error.None?
    ensures !(a.SetError? || a.ClearError?) ==> r.error == st.error
    ensures a.SetServices? ==> r.services == a.all
    ensures a.AddService? ==>
      |r.services| == |st.services| + 1 && r.services[..|st.services|] == st.services
      && r.services[|st.services|] == a.service
    ensures a.UpdateService? ==>
      |r.services| == |st.services|
      && forall i :: 0 <= i < |st.services| && st.services[i].id != a.id ==> r.services[i] == st.services[i]
  {
    match a
    case SetLoading(b) => st.(isLoading := b)
    case SetError(e) => st.(error := e)
    case SetServices(all) => st.(services := all)
    case AddService(s) => st.(services := st.services + [s])
    case UpdateService(id, u) => st.(services := UpdateById(st.services, id, u, now))
    case ClearError => st.(error := None)
  }

  // ---- Records the provider operations build ----

  /** A service is in a consistent lifecycle state when it carries a completion
      date exactly when it is completed, and was not updated before it was created. */
  predicate LifecycleConsistent(s: Service) {
    (s.completedDate.Some? <==> s.status == Completed) && s.createdAt <= s.updatedAt
  }

  /** The record createService appends. */
  function NewService(data: ServiceData, id: string, now: Date): (r: Service)
    ensures r.id == id && r.status == Requested
    ensures r.vitalSigns == Some([]) && r.medicalReport.None? && r.completedDate.None?
    ensures r.serviceType == data.serviceType && r.patientName == data.patientName
      && r.patientPhone == data.patientPhone && r.patientAddress == data.patientAddress
      && r.notes == data.notes && r.scheduledDate == data.scheduledDate
    ensures r.coordinatorId == data.coordinatorId && r.doctorId == data.doctorId && r.nurseId == data.nurseId
    ensures r.requestedDate == now && r.createdAt == now && r.updatedAt == now
    ensures LifecycleConsistent(r)
  {
    Service(id, data.serviceType, Requested, data.patientName, data.patientPhone,
      data.patientAddress, now, data.scheduledDate, None, data.coordinatorId,
      data.doctorId, data.nurseId, data.notes, Some([]), None, now, now)
  }

  /** The updates assignService passes: both assignees always, and the status
      `doctorId || nurseId ? 'assigned' : 'requested'`. */
  function AssignPatch(doctorId: Option<string>, nurseId: Option<string>): ServicePatch {
    NoChanges.(
      doctorId := Set(doctorId),
      nurseId := Set(nurseId),
      status := Set(if Truthy(doctorId) || Truthy(nurseId) then Assigned else Requested))
  }

  /** The updates updateServiceStatus passes: the status, and a completion date
      only when the target is completed. */
  function StatusPatch(status: ServiceStatus, now: Date): ServicePatch {
    if status == Completed then NoChanges.(status := Set(status), completedDate := Set(Some(now)))
    else NoChanges.(status := Set(status))
  }

  /** The readings of the first service with the given id; an absent list counts as empty. */
  function PriorReadings(services: seq<Service>, serviceId: string): (prior: seq<VitalSigns>)
    ensures (forall i :: 0 <= i < |services| ==> services[i].id != serviceId) ==> prior == []
    ensures forall i :: (0 <= i < |services| && services[i].id == serviceId
                         && (forall j :: 0 <= j < i ==> services[j].id != serviceId))
                        ==> prior == services[i].vitalSigns.GetOr([])
  {
    match Find(services, (s: Service) => s.id == serviceId)
    case Some(s) => s.vitalSigns.GetOr([])
    case None => []
  }

  /** `{ id, serviceId, recordedBy, recordedAt, ...vitalSignsData }`. */
  function NewVitalSigns(serviceId: string, data: VitalSignsData, vitalId: string, now: Date): (v: VitalSigns)
    ensures v.id == vitalId && v.serviceId == serviceId && v.recordedAt == now
    ensures v.recordedBy == data.recordedBy && v.bloodPressure == data.bloodPressure
      && v.heartRate == data.heartRate && v.temperature == data.temperature
      && v.oxygenSaturation == data.oxygenSaturation && v.bloodSugar == data.bloodSugar
      && v.notes == data.notes
  {
    VitalSigns(vitalId, serviceId, data.recordedBy, now, data.bloodPressure, data.heartRate,
      data.temperature, data.oxygenSaturation, data.bloodSugar, data.notes)
  }

  function VitalSignsPatch(services: seq<Service>, serviceId: string, v: VitalSigns): ServicePatch {
    NoChanges.(vitalSigns := Set(Some(PriorReadings(services, serviceId) + [v])))
  }

  /** `{ id, serviceId, doctorId, ...reportData, createdAt: now }`: the creation
      time is written after the spread, so it is always the operation's own. */
  function NewReport(serviceId: string, data: MedicalReportData, reportId: string, now: Date): (m: MedicalReport)
    ensures m.id == reportId && m.serviceId == serviceId && m.createdAt == now
    ensures m.doctorId == data.doctorId && m.patientCondition == data.patientCondition
      && m.diagnosis == data.diagnosis && m.treatment == data.treatment
      && m.medications == data.medications && m.recommendations == data.recommendations
  {
    MedicalReport(reportId, serviceId, data.doctorId, data.patientCondition, data.diagnosis,
      data.treatment, data.medications, data.recommendations, now)
  }

  function ReportPatch(m: MedicalReport): ServicePatch {
    NoChanges.(medicalReport := Set(Some(m)))
  }

  // ---- What each operation does to one matching service ----

  /** assignService overwrites both assignees and sets the status from them alone,
      whatever the status was before; nothing else but updatedAt changes. */
  lemma AssignEffect(s: Service, doctorId: Option<string>, nurseId: Option<string>, now: Date)
    ensures Merge(s, AssignPatch(doctorId, nurseId), now)
      == s.(doctorId := doctorId, nurseId := nurseId, updatedAt := now,
            status := if Truthy(doctorId) || Truthy(nurseId) then Assigned else Requested)
    ensures Merge(s, AssignPatch(doctorId, nurseId), now).status == Assigned
      <==> Truthy(doctorId) || Truthy(nurseId)
  {
  }

  /** updateServiceStatus applies any target status; it sets the completion date
      exactly when the target is completed and otherwise keeps the old one. */
  lemma StatusEffect(s: Service, status: ServiceStatus, now: Date)
    ensures Merge(s, StatusPatch(status, now), now)
      == s.(status := status, updatedAt := now,
            completedDate := if status == Completed then Some(now) else s.completedDate)
  {
  }

  /** addMedicalReport installs the new report, replacing any earlier one. */
  lemma ReportEffect(s: Service, m: MedicalReport, now: Date)
    ensures Merge(s, ReportPatch(m), now) == s.(medicalReport := Some(m), updatedAt := now)
  {
  }

  /** addVitalSigns makes the first matching service's readings one longer: the
      earlier readings stay in order and the new reading is last. Any later service
      with the same id receives the same list. */
  lemma AddVitalSignsEffect(services: seq<Service>, serviceId: string, v: VitalSigns, now: Date)
    requires exists i :: 0 <= i < |services| && services[i].id == serviceId
    ensures var k := FirstIndex(services, (s: Service) => s.id == serviceId);
      var r := UpdateById(services, serviceId, VitalSignsPatch(services, serviceId, v), now);
      && k < |services| && services[k].id == serviceId
      && (forall j :: 0 <= j < k ==> services[j].id != serviceId)
      && r[k] == services[k].(vitalSigns := Some(services[k].vitalSigns.GetOr([]) + [v]), updatedAt := now)
      && |r[k].vitalSigns.value| == |services[k].vitalSigns.GetOr([])| + 1
      && (forall i :: 0 <= i < |services| && services[i].id == serviceId ==>
            r[i].vitalSigns == Some(services[k].vitalSigns.GetOr([]) + [v]))
  {
    var f := Find(services, (s: Service) => s.id == serviceId);
    assert f.Some?;
  }

  // ---- Dashboard counts ----

  function CountStatus(services: seq<Service>, status: ServiceStatus): (n: nat)
    ensures n <= |services|
  {
    Count(services, (s: Service) => s.status == status)
  }

  lemma CountStatusCons(services: seq<Service>, status: ServiceStatus)
    requires services != []
    ensures CountStatus(services, status)
      == (if services[0].status == status then 1 else 0) + CountStatus(services[1..], status)
  {
    CountCons(services, (s: Service) => s.status == status);
  }

  /** Every service has exactly one of the five statuses, so the five counts add up
      to the length of the list. */
  lemma {:induction false} StatusCountsSum(services: seq<Service>)
    ensures CountStatus(services, Requested) + CountStatus(services, Assigned)
      + CountStatus(services, InProgress) + CountStatus(services, Completed)
      + CountStatus(services, Cancelled) == |services|
    decreases |services|
  {
    if services != [] {
      StatusCountsSum(services[1..]);
      CountStatusCons(services, Requested);
      CountStatusCons(services, Assigned);
      CountStatusCons(services, InProgress);
      CountStatusCons(services, Completed);
      CountStatusCons(services, Cancelled);
    }
  }

  /** `getDashboardStats` on a snapshot of the list. */
  function DashboardStatsOf(services: seq<Service>): (r: DashboardStats)
    ensures r.totalServices == |services|
    ensures r.requestedServices + r.assignedServices + r.inProgressServices
      + r.completedServices + r.cancelledServices == r.totalServices
    ensures r.requestedServices <= r.totalServices && r.assignedServices <= r.totalServices
      && r.inProgressServices <= r.totalServices && r.completedServices <= r.totalServices
      && r.cancelledServices <= r.totalServices
    ensures services == [] ==> r == DashboardStats(0, 0, 0, 0, 0, 0)
  {
    StatusCountsSum(services);
    DashboardStats(|services|, CountStatus(services, Requested), CountStatus(services, Assigned),
      CountStatus(services, InProgress), CountStatus(services, Completed),
      CountStatus(services, Cancelled))
  }

  // ---- The provider ----

  /** The ServiceProvider's reducer state and the operations it exposes. Each
      operation issues the same dispatches, in the same order, as the source. */
  class ServiceProvider {
    var services: seq<Service>
    var isLoading: bool
    var error: Option<string>

    function State(): ServiceState
      reads this
    {
      ServiceState(services, isLoading, error)
    }

    constructor ()
      ensures State() == InitialState
    {
      services, isLoading, error := [], false, None;
    }

    method Dispatch(a: ServiceAction, now: Date)
      modifies this
      ensures State() == Reduce(old(State()), a, now)
    {
      var st := Reduce(State(), a, now);
      services, isLoading, error := st.services, st.isLoading, st.error;
    }

    /** The mount effect: SET_SERVICES with the seed list. */
    method LoadServices(seed: seq<Service>, now: Date)
      modifies this
      ensures services == seed && isLoading == old(isLoading) && error == old(error)
    {
      Dispatch(SetServices(seed), now);
    }

    method CreateService(data: ServiceData, id: string, now: Date)
      modifies this
      ensures services == old(services) + [NewService(data, id, now)]
      ensures !isLoading && error.None?
    {
      Dispatch(SetLoading(true), now);
      var s := NewService(data, id, now);
      Dispatch(AddService(s), now);
      Dispatch(SetError(None), now);
      Dispatch(SetLoading(false), now);
    }

    method UpdateService(id: string, updates: ServicePatch, now: Date)
      modifies this
      ensures services == UpdateById(old(services), id, updates, now)
      ensures !isLoading && error.None?
    {
      Dispatch(SetLoading(true), now);
      Dispatch(ServiceAction.UpdateService(id, updates), now);
      Dispatch(SetError(None), now);
      Dispatch(SetLoading(false), now);
    }

    method AssignService(id: string, doctorId: Option<string>, nurseId: Option<string>, now: Date)
      modifies this
      ensures services == UpdateById(old(services), id, AssignPatch(doctorId, nurseId), now)
      ensures !isLoading && error.None?
    {
      UpdateService(id, AssignPatch(doctorId, nurseId), now);
    }

    method UpdateServiceStatus(id: string, status: ServiceStatus, now: Date)
      modifies this
      ensures services == UpdateById(old(services), id, StatusPatch(status, now), now)
      ensures !isLoading && error.None?
    {
      var updates := NoChanges.(status := Set(status));
      if status == Completed {
        updates := updates.(completedDate := Set(Some(now)));
      }
      UpdateService(id, updates, now);
    }

    method AddVitalSigns(serviceId: string, data: VitalSignsData, vitalId: string, now: Date)
      modifies this
      ensures services == UpdateById(old(services), serviceId,
        VitalSignsPatch(old(services), serviceId, NewVitalSigns(serviceId, data, vitalId, now)), now)
      ensures !isLoading && error.None?
    {
      var v := NewVitalSigns(serviceId, data, vitalId, now);
      UpdateService(serviceId, VitalSignsPatch(services, serviceId, v), now);
    }

    method AddMedicalReport(serviceId: string, data: MedicalReportData, reportId: string, now: Date)
      modifies this
      ensures services == UpdateById(old(services), serviceId, ReportPatch(NewReport(serviceId, data, reportId, now)), now)
      ensures !isLoading && error.None?
    {
      var m := NewReport(serviceId, data, reportId, now);
      UpdateService(serviceId, ReportPatch(m), now);
    }

    function GetDashboardStats(): (r: DashboardStats)
      reads this
      ensures r.totalServices == |services|
      ensures r.requestedServices + r.assignedServices + r.inProgressServices
        + r.completedServices + r.cancelledServices == |services|
    {
      DashboardStatsOf(services)
    }

    method ClearError()
      modifies this
      ensures services == old(services) && isLoading == old(isLoading) && error.None?
    {
      Dispatch(ServiceAction.ClearError, 0);
    }
  }
}
