/**
 * The browser storage the application persists its session in, and the JSON
 * conversions it uses on the way in and out. Storage is a map from keys to
 * string values; JSON syntax is not modelled, only the conversions as
 * functions, with parsing returning None where JSON.parse throws.
 */
module Storage {
  import opened Types

  type Store = map<string, string>

  const SessionKey := "healthAppSessionActive"
  const ProfileKey := "healthAppPatientProfile"
  const LogsKey := "healthAppDailyLogs"

  /** The three keys the application owns. */
  const AppKeys: set<string> := {SessionKey, ProfileKey, LogsKey}

  /** `localStorage.getItem(key)`: the value, or null (None) for a missing key. */
  function GetItem(store: Store, key: string): (v: Option<string>)
    ensures v.Some? <==> key in store
    ensures v.Some? ==> v.value == store[key]
  {
    if key in store then Some(store[key]) else None
  }

  /** `if (localStorage.getItem(key))`: present and not the empty string. */
  predicate Stored(store: Store, key: string)
  {
    Truthy(GetItem(store, key))
  }

  /** JSON.parse and JSON.stringify at the two types the application stores. */
  datatype Codec = Codec(
    parsePatient: string -> Option<Patient>,
    parseLogs: string -> Option<seq<DailyLog>>,
    showPatient: Patient -> string,
    showLogs: seq<DailyLog> -> string)

  /**
   * The conversions give back what was stored for this patient and these
   * logs, and the stored text is never empty. JSON.stringify writes NaN as
   * null, so this holds only for records whose numbers are finite.
   */
  predicate RoundTrips(codec: Codec, patient: Patient, logs: seq<DailyLog>)
  {
    && codec.parsePatient(codec.showPatient(patient)) == Some(patient)
    && codec.parseLogs(codec.showLogs(logs)) == Some(logs)
    && codec.showPatient(patient) != ""
    && codec.showLogs(logs) != ""
  }
}
