/** The shared data model of the medical home-services app (src/types/index.ts).
    Every TypeScript union of string literals becomes an enumeration, every optional
    (`?:`) field an Option, and every `Date` a natural-number timestamp. */
module Types {

  datatype Option<+T> = None | Some(value: T) {
    function GetOr(default: T): T {
      match this
      case Some(v) => v
      case None => default
    }
  }

  /** A value or the message of the alert the source shows instead. */
  datatype Result<+T> = Ok(value: T) | Err(message: string)

  /** A point in time; wall-clock reads are parameters of the operations. */
  type Date = nat

  /** A vital-sign reading as the clinician typed it; the numeric parse is left out. */
  type Reading = string

  datatype UserRole = Coordinator | Doctor | Nurse

  datatype User = User(id: string, name: string, email: string, role: UserRole, isActive: bool)

  datatype ServiceType = BasicTransport | MedicalizedTransport | HomeConsultation

  datatype ServiceStatus = Requested | Assigned | InProgress | Completed | Cancelled

  datatype BloodPressure = BloodPressure(systolic: Reading, diastolic: Reading)

  datatype VitalSigns = VitalSigns(
    id: string,
    serviceId: string,
    recordedBy: string,
    recordedAt: Date,
    bloodPressure: Option<BloodPressure>,
    heartRate: Option<Reading>,
    temperature: Option<Reading>,
    oxygenSaturation: Option<Reading>,
    bloodSugar: Option<Reading>,
    notes: Option<string>)

  datatype MedicalReport = MedicalReport(
    id: string,
    serviceId: string,
    doctorId: string,
    patientCondition: string,
    diagnosis: Option<string>,
    treatment: Option<string>,
    medications: Option<seq<string>>,
    recommendations: Option<string>,
    createdAt: Date)

  /** A service request. At most one medical report (a single optional field);
      the vital signs are an optional ordered sequence. */
  datatype Service = Service(
    id: string,
    serviceType: ServiceType,
    status: ServiceStatus,
    patientName: string,
    patientPhone: string,
    patientAddress: string,
    requestedDate: Date,
    scheduledDate: Option<Date>,
    completedDate: Option<Date>,
    coordinatorId: string,
    doctorId: Option<string>,
    nurseId: Option<string>,
    notes: string,
    vitalSigns: Option<seq<VitalSigns>>,
    medicalReport: Option<MedicalReport>,
    createdAt: Date,
    updatedAt: Date)

  /** What the create form hands to createService: ServiceFormData plus the
      coordinator's id. */
  datatype ServiceData = ServiceData(
    serviceType: ServiceType,
    patientName: string,
    patientPhone: string,
    patientAddress: string,
    scheduledDate: Option<Date>,
    notes: string,
    doctorId: Option<string>,
    nurseId: Option<string>,
    coordinatorId: string)

  /** What the detail screen hands to addVitalSigns: VitalSignsFormData plus recordedBy. */
  datatype VitalSignsData = VitalSignsData(
    bloodPressure: Option<BloodPressure>,
    heartRate: Option<Reading>,
    temperature: Option<Reading>,
    oxygenSaturation: Option<Reading>,
    bloodSugar: Option<Reading>,
    notes: Option<string>,
    recordedBy: string)

  /** What the detail screen hands to addMedicalReport: MedicalReportFormData plus doctorId. */
  datatype MedicalReportData = MedicalReportData(
    patientCondition: string,
    diagnosis: Option<string>,
    treatment: Option<string>,
    medications: Option<seq<string>>,
    recommendations: Option<string>,
    doctorId: string)

  /** The dashboard snapshot: a total and one count per status. */
  datatype DashboardStats = DashboardStats(
    totalServices: nat,
    requestedServices: nat,
    assignedServices: nat,
    inProgressServices: nat,
    completedServices: nat,
    cancelledServices: nat)

  /** JavaScript truthiness of an optional string: absent and "" are both falsy. */
  predicate Truthy(s: Option<string>) {
    s.Some? && s.value != ""
  }

  /** `x || undefined` on a form string: "" becomes absent. */
  function NonEmpty(s: string): (r: Option<string>)
    ensures r.None? <==> s == ""
    ensures r.Some? ==> r.value == s
  {
    if s == "" then None else Some(s)
  }
}
