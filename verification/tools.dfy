/**
 * The tools the adapter exposes. Each tool checks its required arguments,
 * refusing the call before any request is made, and otherwise builds the flat
 * parameter map the backend's single endpoint expects: a fixed operation code
 * under "MType", fixed field names, and optional fields added only when their
 * value is non-empty. Dates and times are checked for non-emptiness only.
 */
module Tools {
  import opened Wrappers
  import opened Validation

  /** The flat parameter set of one backend request. */
  type Params = map<string, string>

  /** The actions confirm_appointment accepts. */
  const Actions: set<string> := {"confirm", "cancel", "update"}

  /**
   * Reference shape of a tool's parameters: every fixed field, plus each
   * optional field whose value is non-empty, and nothing else.
   */
  function Fields(fixed: Params, optional: Params): (p: Params)
    requires fixed.Keys !! optional.Keys
    ensures p.Keys == fixed.Keys + set k | k in optional && optional[k] != ""
    ensures forall k :: k in fixed ==> p[k] == fixed[k]
    ensures forall k :: k in optional && optional[k] != "" ==> p[k] == optional[k]
  {
    fixed + map k | k in optional && optional[k] != "" :: optional[k]
  }

  /** One conditional insertion: `if value: params[key] = value`. */
  function AddIfPresent(params: Params, key: string, value: string): Params
  {
    if value != "" then params[key := value] else params
  }

  /**
   * Each conditional insertion of a fresh optional field keeps a map in the
   * reference shape, now with that field among the optional ones.
   */
  lemma AddIfPresentKeepsShape(fixed: Params, optional: Params, key: string, value: string)
    requires fixed.Keys !! optional.Keys && key !in fixed && key !in optional
    ensures AddIfPresent(Fields(fixed, optional), key, value) == Fields(fixed, optional[key := value])
  {
  }

  /** find_doctor_by_name: requires the name; operation code 600. */
  function FindDoctorByName(doctorName: string): (r: Result<Params, ToolError>)
    ensures r.Failure? <==> doctorName == ""
    ensures r.Failure? ==> r.error == Missing(DoctorName)
    ensures r.Success? ==> r.value == Fields(map["MType" := "600", "DoctorName" := doctorName], map[])
  {
    if doctorName == "" then Failure(Missing(DoctorName))
    else Success(map["MType" := "600", "DoctorName" := doctorName])
  }

  /** find_doctor_by_code: requires the code; operation code 600. */
  function FindDoctorByCode(doctorCode: string): (r: Result<Params, ToolError>)
    ensures r.Failure? <==> doctorCode == ""
    ensures r.Failure? ==> r.error == Missing(DoctorCode)
    ensures r.Success? ==> r.value == Fields(map["MType" := "600", "DoctorCode" := doctorCode], map[])
  {
    if doctorCode == "" then Failure(Missing(DoctorCode))
    else Success(map["MType" := "600", "DoctorCode" := doctorCode])
  }

  /**
   * The parameters create_appointment sends once its guards pass: the branch is
   * always sent, the patient's name and social id only when given.
   * Operation code 700.
   */
  function AppointmentParams(doctorCode: string, patientPhone: string, appointmentDate: string,
                             appointmentTime: string, patientName: string, socialId: string,
                             branchId: string): (p: Params)
    ensures p == Fields(
      map["MType" := "700", "DoctorCode" := doctorCode, "PatientPhone" := patientPhone,
          "AppointmentDate" := appointmentDate, "AppointmentTime" := appointmentTime,
          "IDBranch" := branchId],
      map["PatientName" := patientName, "SocialID" := socialId])
  {
    var params := map["MType" := "700", "DoctorCode" := doctorCode, "PatientPhone" := patientPhone,
                      "AppointmentDate" := appointmentDate, "AppointmentTime" := appointmentTime,
                      "IDBranch" := branchId];
    var params := AddIfPresent(params, "PatientName", patientName);
    AddIfPresent(params, "SocialID", socialId)
  }

  /**
   * create_appointment: doctor code, patient phone, date and time are required
   * and tested in that order.
   */
  function CreateAppointment(doctorCode: string, patientPhone: string, appointmentDate: string,
                             appointmentTime: string, patientName: string, socialId: string,
                             branchId: string): (r: Result<Params, ToolError>)
    ensures r.Success? <==>
      doctorCode != "" && patientPhone != "" && appointmentDate != "" && appointmentTime != ""
    ensures r == Failure(Missing(DoctorCode)) <==> doctorCode == ""
    ensures r == Failure(Missing(PatientPhone)) <==> doctorCode != "" && patientPhone == ""
    ensures r == Failure(Missing(AppointmentDate)) <==>
      doctorCode != "" && patientPhone != "" && appointmentDate == ""
    ensures r == Failure(Missing(AppointmentTime)) <==>
      doctorCode != "" && patientPhone != "" && appointmentDate != "" && appointmentTime == ""
    ensures r.Success? ==>
      r.value == AppointmentParams(doctorCode, patientPhone, appointmentDate, appointmentTime, patientName, socialId, branchId)
  {
    var required := [(DoctorCode, doctorCode), (PatientPhone, patientPhone),
                     (AppointmentDate, appointmentDate), (AppointmentTime, appointmentTime)];
    match FirstMissing(required)
    case Some(arg) =>
      assert required[0].1 != "" ==> required[1].1 != "" ==> required[2].1 != "" ==> required[3].1 == "";
      Failure(Missing(arg))
    case None =>
      assert required[3].1 != "" && required[2].1 != "" && required[1].1 != "" && required[0].1 != "";
      Success(AppointmentParams(doctorCode, patientPhone, appointmentDate, appointmentTime,
                                patientName, socialId, branchId))
  }

  /** find_nearest_slot: requires the doctor code; the preferred date only when given. Code 800. */
  function FindNearestSlot(doctorCode: string, preferredDate: string): (r: Result<Params, ToolError>)
    ensures r.Failure? <==> doctorCode == ""
    ensures r.Failure? ==> r.error == Missing(DoctorCode)
    ensures r.Success? ==>
      r.value == Fields(map["MType" := "800", "DoctorCode" := doctorCode], map["PreferredDate" := preferredDate])
  {
    if doctorCode == "" then Failure(Missing(DoctorCode))
    else Success(AddIfPresent(map["MType" := "800", "DoctorCode" := doctorCode], "PreferredDate", preferredDate))
  }

  /**
   * confirm_appointment: requires the appointment number, then an action among
   * confirm, cancel and update. Code 900.
   */
  function ConfirmAppointment(appointmentNumber: string, action: string): (r: Result<Params, ToolError>)
    ensures r.Success? <==> appointmentNumber != "" && action in Actions
    ensures r == Failure(Missing(AppointmentNumber)) <==> appointmentNumber == ""
    ensures r == Failure(InvalidAction) <==> appointmentNumber != "" && action !in Actions
    ensures r.Success? ==>
      r.value == Fields(map["MType" := "900", "AppointmentNumber" := appointmentNumber, "Action" := action], map[])
  {
    if appointmentNumber == "" then Failure(Missing(AppointmentNumber))
    else if action !in Actions then Failure(InvalidAction)
    else Success(map["MType" := "900", "AppointmentNumber" := appointmentNumber, "Action" := action])
  }

  /** get_appointment: requires the appointment number. Code 910. */
  function GetAppointment(appointmentNumber: string): (r: Result<Params, ToolError>)
    ensures r.Failure? <==> appointmentNumber == ""
    ensures r.Failure? ==> r.error == Missing(AppointmentNumber)
    ensures r.Success? ==>
      r.value == Fields(map["MType" := "910", "AppointmentNumber" := appointmentNumber], map[])
  {
    if appointmentNumber == "" then Failure(Missing(AppointmentNumber))
    else Success(map["MType" := "910", "AppointmentNumber" := appointmentNumber])
  }

  /** list_appointments: requires the date; doctor code and branch only when given. Code 1000. */
  function ListAppointments(date: string, doctorCode: string, branchId: string): (r: Result<Params, ToolError>)
    ensures r.Failure? <==> date == ""
    ensures r.Failure? ==> r.error == Missing(Date)
    ensures r.Success? ==>
      r.value == Fields(map["MType" := "1000", "Date" := date], map["DoctorCode" := doctorCode, "IDBranch" := branchId])
  {
    if date == "" then Failure(Missing(Date))
    else
      var params := AddIfPresent(map["MType" := "1000", "Date" := date], "DoctorCode", doctorCode);
      Success(AddIfPresent(params, "IDBranch", branchId))
  }

  /**
   * The parameters search_patient and get_patient_invoice send: the operation
   * code and every identifier that was given; there is no preference among them.
   */
  function IdentifierParams(mType: string, fileNo: string, phone: string, socialId: string): (p: Params)
    ensures p == Fields(map["MType" := mType], map["FileNo" := fileNo, "Phone" := phone, "SocialID" := socialId])
  {
    var fixed := map["MType" := mType];
    var params := AddIfPresent(map["MType" := mType], "FileNo", fileNo);
    assert fixed == Fields(fixed, map[]);
    AddIfPresentKeepsShape(fixed, map[], "FileNo", fileNo);
    var params := AddIfPresent(params, "Phone", phone);
    AddIfPresentKeepsShape(fixed, map["FileNo" := fileNo], "Phone", phone);
    AddIfPresentKeepsShape(fixed, map["FileNo" := fileNo, "Phone" := phone], "SocialID", socialId);
    AddIfPresent(params, "SocialID", socialId)
  }

  /**
   * The guard search_patient and get_patient_invoice share: at least one of
   * file number, phone and social id must be given.
   */
  function ByPatientIdentifiers(mType: string, fileNo: string, phone: string, socialId: string): (r: Result<Params, ToolError>)
    ensures r.Failure? <==> fileNo == "" && phone == "" && socialId == ""
    ensures r.Failure? ==> r.error == NoPatientIdentifier
    ensures r.Success? ==> r.value == IdentifierParams(mType, fileNo, phone, socialId)
  {
    if fileNo == "" && phone == "" && socialId == "" then Failure(NoPatientIdentifier)
    else Success(IdentifierParams(mType, fileNo, phone, socialId))
  }

  /** search_patient: operation code 1100. */
  function SearchPatient(fileNo: string, phone: string, socialId: string): (r: Result<Params, ToolError>)
    ensures r.Failure? <==> fileNo == "" && phone == "" && socialId == ""
    ensures r.Failure? ==> r.error == NoPatientIdentifier
    ensures r.Success? ==> r.value == IdentifierParams("1100", fileNo, phone, socialId)
    ensures r.Success? ==> "MType" in r.value && r.value["MType"] == "1100"
  {
    ByPatientIdentifiers("1100", fileNo, phone, socialId)
  }

  /** get_patient_invoice: operation code 1200. */
  function PatientInvoice(fileNo: string, phone: string, socialId: string): (r: Result<Params, ToolError>)
    ensures r.Failure? <==> fileNo == "" && phone == "" && socialId == ""
    ensures r.Failure? ==> r.error == NoPatientIdentifier
    ensures r.Success? ==> r.value == IdentifierParams("1200", fileNo, phone, socialId)
    ensures r.Success? ==> "MType" in r.value && r.value["MType"] == "1200" && "ReportType" !in r.value
  {
    ByPatientIdentifiers("1200", fileNo, phone, socialId)
  }

  /** get_daily_income: requires the date; code 1200 with report type DailyIncome. */
  function DailyIncome(date: string): (r: Result<Params, ToolError>)
    ensures r.Failure? <==> date == ""
    ensures r.Failure? ==> r.error == Missing(Date)
    ensures r.Success? ==>
      r.value == Fields(map["MType" := "1200", "Date" := date, "ReportType" := "DailyIncome"], map[])
  {
    if date == "" then Failure(Missing(Date))
    else Success(map["MType" := "1200", "Date" := date, "ReportType" := "DailyIncome"])
  }
}
