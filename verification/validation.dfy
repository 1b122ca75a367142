/**
 * Argument validation shared by the configuration entry point and the tools.
 * Every guard of the adapter tests a string argument for emptiness (Python's
 * `not x` on a `str`), one argument after the other, and reports the first one
 * that fails; the error names the argument, as the adapter's error messages do.
 */
module Validation {
  import opened Wrappers

  /** The arguments whose emptiness the adapter checks. */
  datatype Arg =
    | ClientId
    | BaseUrl
    | HCode
    | DoctorName
    | DoctorCode
    | PatientPhone
    | AppointmentDate
    | AppointmentTime
    | AppointmentNumber
    | Date

  /** Why a call was refused before any request was made. */
  datatype ToolError =
    | Missing(arg: Arg)        // "<arg> is required"
    | InvalidAction            // action outside confirm / cancel / update
    | NoPatientIdentifier      // none of file number, phone, social id given

  /**
   * The first required argument, in the order the guards test them, whose
   * value is empty; None when every required argument is present.
   */
  function FirstMissing(required: seq<(Arg, string)>): (r: Option<Arg>)
    ensures r.None? <==> forall i :: 0 <= i < |required| ==> required[i].1 != ""
    ensures r.Some? ==>
      exists i :: 0 <= i < |required| && required[i] == (r.value, "") &&
        forall j :: 0 <= j < i ==> required[j].1 != ""
    ensures forall k :: 0 <= k < |required| && required[k].1 == "" ==>
      (forall j :: 0 <= j < k ==> required[j].1 != "") ==> r == Some(required[k].0)
  {
    if |required| == 0 then None
    else if required[0].1 == "" then Some(required[0].0)
    else
      var rest := FirstMissing(required[1..]);
      assert forall i :: 1 <= i < |required| ==> required[i] == required[1..][i - 1];
      rest
  }
}
