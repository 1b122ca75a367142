/**
 * The catalog of tools as one closed set of variants, each carrying its own
 * arguments, with the operation code each one sends and a single entry point
 * that validates and builds the parameters of any of them.
 */
module Catalog {
  import opened Wrappers
  import opened Validation
  import Tools

  /** One invocation of a tool, with its arguments (client id aside). */
  datatype Tool =
    | GetWikimedInfo
    | ListDoctors
    | FindDoctorByName(doctorName: string)
    | FindDoctorByCode(doctorCode: string)
    | CreateAppointment(doctorCode: string, patientPhone: string, appointmentDate: string,
                        appointmentTime: string, patientName: string, socialId: string, branchId: string)
    | FindNearestSlot(doctorCode: string, preferredDate: string)
    | ConfirmAppointment(appointmentNumber: string, action: string)
    | GetAppointment(appointmentNumber: string)
    | ListAppointments(date: string, doctorCode: string, branchId: string)
    | SearchPatient(fileNo: string, phone: string, socialId: string)
    | GetPatientInvoice(fileNo: string, phone: string, socialId: string)
    | GetDailyIncome(date: string)
    | RestartService

  /** The backend operation code each tool sends under "MType". */
  function OpCode(t: Tool): string
  {
    match t
    case GetWikimedInfo => "100"
    case ListDoctors => "500"
    case FindDoctorByName(_) => "600"
    case FindDoctorByCode(_) => "600"
    case CreateAppointment(_, _, _, _, _, _, _) => "700"
    case FindNearestSlot(_, _) => "800"
    case ConfirmAppointment(_, _) => "900"
    case GetAppointment(_) => "910"
    case ListAppointments(_, _, _) => "1000"
    case SearchPatient(_, _, _) => "1100"
    case GetPatientInvoice(_, _, _) => "1200"
    case GetDailyIncome(_) => "1200"
    case RestartService => "1300"
  }

  /** Whether a tool takes no argument besides the client id, and so is never refused. */
  predicate TakesNoArguments(t: Tool)
  {
    t.GetWikimedInfo? || t.ListDoctors? || t.RestartService?
  }

  /** Validates a tool's arguments and builds its parameters. */
  function Build(t: Tool): Result<Tools.Params, ToolError>
  {
    match t
    case GetWikimedInfo => Success(map["MType" := "100"])
    case ListDoctors => Success(map["MType" := "500"])
    case FindDoctorByName(name) => Tools.FindDoctorByName(name)
    case FindDoctorByCode(code) => Tools.FindDoctorByCode(code)
    case CreateAppointment(code, phone, date, time, name, socialId, branch) =>
      Tools.CreateAppointment(code, phone, date, time, name, socialId, branch)
    case FindNearestSlot(code, preferred) => Tools.FindNearestSlot(code, preferred)
    case ConfirmAppointment(number, action) => Tools.ConfirmAppointment(number, action)
    case GetAppointment(number) => Tools.GetAppointment(number)
    case ListAppointments(date, code, branch) => Tools.ListAppointments(date, code, branch)
    case SearchPatient(fileNo, phone, socialId) => Tools.SearchPatient(fileNo, phone, socialId)
    case GetPatientInvoice(fileNo, phone, socialId) => Tools.PatientInvoice(fileNo, phone, socialId)
    case GetDailyIncome(date) => Tools.DailyIncome(date)
    case RestartService => Success(map["MType" := "1300"])
  }

  /**
   * Whatever the tool, a built map carries the tool's operation code and never
   * a site code (that is added from the client's configuration).
   */
  lemma BuildCarriesOpCode(t: Tool)
    ensures Build(t).Success? ==> "MType" in Build(t).value && Build(t).value["MType"] == OpCode(t)
    ensures Build(t).Success? ==> "HCode" !in Build(t).value
  {
  }

  /** The tools without arguments are never refused and send only their operation code. */
  lemma ArgumentlessToolsNeverFail(t: Tool)
    requires TakesNoArguments(t)
    ensures Build(t) == Success(map["MType" := OpCode(t)])
  {
  }
}
