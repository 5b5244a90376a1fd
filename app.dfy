/**
 * The application shell (App.tsx): the session kept in browser storage, the
 * startup restore, sign-up, login and logout handlers, and which screen is
 * shown. Each handler is a transition function on `AppState`, where the
 * properties are stated and proved; the class `AppShell` performs the same
 * handlers step by step on its fields and is proved to agree with them.
 */
module App {
  import opened Types
  import opened Storage
  import Login
  import SignUp

  datatype AuthPage = LoginPage | SignUpPage

  datatype Page = DashboardPage | PredictorPage | ResourcesPage | AboutPage

  /** The component's state together with the storage it reads and writes. */
  datatype AppState = AppState(
    store: Store,
    isInitialized: bool,
    authPage: AuthPage,
    currentPage: Page,
    patientProfile: Option<Patient>,
    dailyLogs: seq<DailyLog>)

  /** The state at mount, over whatever the storage holds. */
  function Initial(store: Store): (s: AppState)
    ensures s.store == store && !s.isInitialized && s.patientProfile == None && s.dailyLogs == []
  {
    AppState(store, false, LoginPage, DashboardPage, None, [])
  }

  /** `localStorage.getItem('healthAppSessionActive') === 'true'`. */
  predicate SessionActive(store: Store)
  {
    GetItem(store, SessionKey) == Some("true")
  }

  /** Both the profile and the logs entries are present and non-empty. */
  predicate BothStored(store: Store)
  {
    Stored(store, ProfileKey) && Stored(store, LogsKey)
  }

  /** Both stored entries parse. */
  predicate BothParse(store: Store, codec: Codec)
    requires BothStored(store)
  {
    codec.parsePatient(store[ProfileKey]).Some? && codec.parseLogs(store[LogsKey]).Some?
  }

  /** The startup effect restores a session: flag set, both entries present and both parse. */
  predicate Restorable(store: Store, codec: Codec)
  {
    SessionActive(store) && BothStored(store) && BothParse(store, codec)
  }

  /** The startup effect reaches its catch clause: flag set, both entries present, one fails to parse. */
  predicate Corrupted(store: Store, codec: Codec)
  {
    SessionActive(store) && BothStored(store) && !BothParse(store, codec)
  }

  // ---------------------------------------------------------------------------
  // Transitions

  /**
   * The startup effect. A restorable session loads the parsed profile and
   * logs and leaves storage alone; a corrupted one loads nothing and removes
   * all three keys; in every other case (flag not exactly "true", an entry
   * missing) nothing but the initialised flag changes. Initialisation is
   * reached on every path.
   */
  function Startup(s: AppState, codec: Codec): (r: AppState)
    ensures r.isInitialized && r.authPage == s.authPage && r.currentPage == s.currentPage
    ensures Restorable(s.store, codec) ==>
      && r.store == s.store
      && r.patientProfile == codec.parsePatient(s.store[ProfileKey])
      && r.dailyLogs == codec.parseLogs(s.store[LogsKey]).value
    ensures Corrupted(s.store, codec) ==>
      && r.store == s.store - AppKeys
      && r.patientProfile == s.patientProfile && r.dailyLogs == s.dailyLogs
    ensures !Restorable(s.store, codec) && !Corrupted(s.store, codec) ==> r == s.(isInitialized := true)
  {
    if SessionActive(s.store) && BothStored(s.store) then
      var profile := codec.parsePatient(s.store[ProfileKey]);
      var logs := codec.parseLogs(s.store[LogsKey]);
      if profile.Some? && logs.Some? then
        s.(isInitialized := true, patientProfile := profile, dailyLogs := logs.value)
      else
        s.(isInitialized := true, store := s.store - AppKeys)
    else
      s.(isInitialized := true)
  }

  /** generateDummyLogs: the two sample logs every new account starts with. */
  function SeedLogs(patientId: string): (logs: seq<DailyLog>)
    ensures |logs| == 2 && logs[0].log_id == "L01" && logs[1].log_id == "L02"
    ensures forall i :: 0 <= i < |logs| ==> logs[i].patient_id == patientId
  {
    [ DailyLog("L01", patientId, "2024-07-18", [], Vitals(129.0, 83.0, 118.0, 79.0), ["fatigue"], 5.5),
      DailyLog("L02", patientId, "2024-07-19", [], Vitals(127.0, 82.0, 114.0, 77.0), [], 7.5) ]
  }

  /** How the two `setItem` calls of sign-up went: both stored, or the first one to throw. */
  datatype WriteOutcome = AllWritten | LogsWriteFailed | ProfileWriteFailed

  /**
   * handleSignUp: the profile and then the seed logs are written; only when
   * both writes succeed does the page switch to login. Neither the session
   * flag nor the loaded patient and logs change: signing up does not log in.
   */
  function AfterSignUp(s: AppState, patient: Patient, writes: WriteOutcome, codec: Codec): (r: AppState)
    ensures writes == ProfileWriteFailed ==> r == s
    ensures writes == LogsWriteFailed ==> r == s.(store := s.store[ProfileKey := codec.showPatient(patient)])
    ensures writes == AllWritten ==>
      && r.store == s.store[ProfileKey := codec.showPatient(patient)][LogsKey := codec.showLogs(SeedLogs(patient.patient_id))]
      && r.authPage == LoginPage
    ensures r.authPage == (if writes == AllWritten then LoginPage else s.authPage)
    ensures GetItem(r.store, SessionKey) == GetItem(s.store, SessionKey)
    ensures r.patientProfile == s.patientProfile && r.dailyLogs == s.dailyLogs
    ensures r.isInitialized == s.isInitialized && r.currentPage == s.currentPage
  {
    match writes
    case ProfileWriteFailed => s
    case LogsWriteFailed => s.(store := s.store[ProfileKey := codec.showPatient(patient)])
    case AllWritten =>
      s.(store := s.store[ProfileKey := codec.showPatient(patient)][LogsKey := codec.showLogs(SeedLogs(patient.patient_id))],
         authPage := LoginPage)
  }

  /** handleLogin throws: both entries are present but one of them does not parse. */
  predicate LoginThrows(s: AppState, codec: Codec)
  {
    BothStored(s.store) && !BothParse(s.store, codec)
  }

  /**
   * handleLogin: with both entries present and parsed, the profile and logs
   * are loaded as stored (not re-dated) and the session flag is set to
   * "true"; otherwise nothing changes. It does not check credentials.
   */
  function AfterLogin(s: AppState, codec: Codec): (r: AppState)
    ensures BothStored(s.store) && BothParse(s.store, codec) ==>
      && r.patientProfile == codec.parsePatient(s.store[ProfileKey])
      && r.dailyLogs == codec.parseLogs(s.store[LogsKey]).value
      && r.store == s.store[SessionKey := "true"]
      && SessionActive(r.store)
    ensures !(BothStored(s.store) && BothParse(s.store, codec)) ==> r == s
    ensures r.authPage == s.authPage && r.currentPage == s.currentPage && r.isInitialized == s.isInitialized
  {
    if BothStored(s.store) then
      var profile := codec.parsePatient(s.store[ProfileKey]);
      var logs := codec.parseLogs(s.store[LogsKey]);
      if profile.Some? && logs.Some? then
        s.(patientProfile := profile, dailyLogs := logs.value, store := s.store[SessionKey := "true"])
      else
        s
    else
      s
  }

  /**
   * handleLogout: the loaded patient and logs are cleared and only the
   * session flag is removed; the stored profile and logs stay.
   */
  function AfterLogout(s: AppState): (r: AppState)
    ensures r.patientProfile == None && r.dailyLogs == []
    ensures SessionKey !in r.store
    ensures forall k :: k != SessionKey ==> GetItem(r.store, k) == GetItem(s.store, k)
    ensures r.authPage == s.authPage && r.currentPage == s.currentPage && r.isInitialized == s.isInitialized
  {
    s.(patientProfile := None, dailyLogs := [], store := s.store - {SessionKey})
  }

  /** The login form's submit followed, when it calls back, by handleLogin. */
  function AfterLoginSubmit(s: AppState, username: string, password: string, codec: Codec): (r: AppState)
    ensures Login.LoginDecision(s.store, username, password, codec.parsePatient) == Login.CallsOnLogin ==>
      r == AfterLogin(s, codec)
    ensures Login.LoginDecision(s.store, username, password, codec.parsePatient) != Login.CallsOnLogin ==>
      r == s
  {
    if Login.LoginDecision(s.store, username, password, codec.parsePatient) == Login.CallsOnLogin
    then AfterLogin(s, codec) else s
  }

  /** What the component renders. */
  datatype Screen = Loading | LoginScreen | SignUpScreen | MainScreen(page: Page)

  /**
   * The render gate: the spinner until initialised; then, without a loaded
   * patient, the login or sign-up page; with one, the current page.
   */
  function ScreenOf(s: AppState): (screen: Screen)
    ensures screen == Loading <==> !s.isInitialized
    ensures screen.MainScreen? <==> s.isInitialized && s.patientProfile.Some?
    ensures screen.MainScreen? ==> screen.page == s.currentPage
    ensures screen == LoginScreen <==> s.isInitialized && s.patientProfile.None? && s.authPage == LoginPage
  {
    if !s.isInitialized then Loading
    else if s.patientProfile.None? then (if s.authPage == LoginPage then LoginScreen else SignUpScreen)
    else MainScreen(s.currentPage)
  }

  // ---------------------------------------------------------------------------
  // Properties of whole sessions

  /**
   * A successful sign-up followed by a login with the same credentials loads
   * exactly the new patient and its two seed logs and activates the session.
   */
  lemma {:induction false} SignUpThenLogin(s: AppState, patient: Patient, username: string, password: string,
                                           codec: Codec)
    requires patient.username == Some(username) && patient.password == Some(password)
    requires RoundTrips(codec, patient, SeedLogs(patient.patient_id))
    ensures var signedUp := AfterSignUp(s, patient, AllWritten, codec);
      && signedUp.authPage == LoginPage
      && signedUp.patientProfile == s.patientProfile
      && var loggedIn := AfterLoginSubmit(signedUp, username, password, codec);
      && loggedIn.patientProfile == Some(patient)
      && loggedIn.dailyLogs == SeedLogs(patient.patient_id)
      && SessionActive(loggedIn.store)
      && (s.isInitialized ==> ScreenOf(loggedIn) == MainScreen(s.currentPage))
  {
    var signedUp := AfterSignUp(s, patient, AllWritten, codec);
    var store := signedUp.store;
    assert store[ProfileKey] == codec.showPatient(patient);
    assert store[LogsKey] == codec.showLogs(SeedLogs(patient.patient_id));
    assert BothStored(store);
    assert Login.CredentialsMatch(patient, username, password);
  }

  /**
   * The account a sign-up form creates accepts the form's own username and
   * password: after the write, logging in with them loads that patient.
   */
  lemma SignUpFormThenLogin(s: AppState, form: SignUp.SignUpForm, id: string,
                            parseFloat: string -> Number, roundedBmi: (Number, Number) -> Number,
                            codec: Codec)
    requires var patient := SignUp.NewPatient(form, id, parseFloat, roundedBmi);
      RoundTrips(codec, patient, SeedLogs(patient.patient_id))
    ensures var patient := SignUp.NewPatient(form, id, parseFloat, roundedBmi);
      AfterLoginSubmit(AfterSignUp(s, patient, AllWritten, codec), form.username, form.password, codec).patientProfile
        == Some(patient)
  {
    var patient := SignUp.NewPatient(form, id, parseFloat, roundedBmi);
    SignUpThenLogin(s, patient, form.username, form.password, codec);
  }

  /** A login that loaded a session is restored unchanged when the page is reloaded. */
  lemma {:induction false} LoginSurvivesReload(s: AppState, codec: Codec)
    requires BothStored(s.store) && BothParse(s.store, codec)
    ensures var loggedIn := AfterLogin(s, codec);
      var reloaded := Startup(Initial(loggedIn.store), codec);
      && reloaded.patientProfile == loggedIn.patientProfile
      && reloaded.dailyLogs == loggedIn.dailyLogs
      && reloaded.store == loggedIn.store
      && ScreenOf(reloaded) == MainScreen(DashboardPage)
  {
    var store := AfterLogin(s, codec).store;
    assert store[ProfileKey] == s.store[ProfileKey] && store[LogsKey] == s.store[LogsKey];
    assert Restorable(store, codec);
  }

  /**
   * After logout a reload shows the login page with nothing loaded, and the
   * same credentials are checked against the same stored profile as before.
   */
  lemma {:induction false} LogoutSurvivesReload(s: AppState, codec: Codec, username: string, password: string)
    ensures var loggedOut := AfterLogout(s);
      var reloaded := Startup(Initial(loggedOut.store), codec);
      && reloaded == Initial(loggedOut.store).(isInitialized := true)
      && ScreenOf(reloaded) == LoginScreen
      && Login.LoginDecision(loggedOut.store, username, password, codec.parsePatient)
         == Login.LoginDecision(s.store, username, password, codec.parsePatient)
  {
    var store := AfterLogout(s).store;
    assert !SessionActive(store);
    assert GetItem(store, ProfileKey) == GetItem(s.store, ProfileKey);
  }

  /**
   * Storage that fails to parse at startup is wiped: no application key is
   * left, the next reload finds nothing to restore, and login reports that
   * there is no account.
   */
  lemma {:induction false} CorruptedStorageRecovered(s: AppState, codec: Codec, username: string, password: string)
    requires Corrupted(s.store, codec)
    ensures var r := Startup(s, codec);
      && (forall k :: k in AppKeys ==> k !in r.store)
      && r.patientProfile == s.patientProfile
      && Startup(Initial(r.store), codec) == Initial(r.store).(isInitialized := true)
      && Login.LoginDecision(r.store, username, password, codec.parsePatient) == Login.Rejected(Login.NoAccountMessage)
  {
    var store := Startup(s, codec).store;
    assert ProfileKey !in store && SessionKey !in store;
    assert !SessionActive(store);
  }

  /** A session flag with one entry missing restores nothing and removes nothing. */
  lemma MissingEntryRestoresNothing(s: AppState, codec: Codec)
    requires SessionActive(s.store) && !BothStored(s.store)
    ensures Startup(s, codec) == s.(isInitialized := true)
  {
  }

  // ---------------------------------------------------------------------------
  // The component

  class AppShell {
    var store: Store
    var isInitialized: bool
    var authPage: AuthPage
    var currentPage: Page
    var patientProfile: Option<Patient>
    var dailyLogs: seq<DailyLog>

    function Snapshot(): AppState
      reads this
    {
      AppState(store, isInitialized, authPage, currentPage, patientProfile, dailyLogs)
    }

    constructor (initialStore: Store)
      ensures Snapshot() == Initial(initialStore)
    {
      store := initialStore;
      isInitialized := false;
      authPage := LoginPage;
      currentPage := DashboardPage;
      patientProfile := None;
      dailyLogs := [];
    }

    /** The startup effect, statement by statement; a failed parse lands in the catch clause. */
    method RunStartup(codec: Codec)
      modifies this
      ensures Snapshot() == Startup(old(Snapshot()), codec)
    {
      var sessionActive := GetItem(store, SessionKey);
      if sessionActive == Some("true") {
        var savedProfileJson := GetItem(store, ProfileKey);
        var savedLogsJson := GetItem(store, LogsKey);
        if Truthy(savedProfileJson) && Truthy(savedLogsJson) {
          var savedProfile := codec.parsePatient(savedProfileJson.value);
          var savedLogs := codec.parseLogs(savedLogsJson.value);
          if savedProfile.Some? && savedLogs.Some? {
            patientProfile := savedProfile;
            dailyLogs := savedLogs.value;
          } else {
            ghost var before := store;
            store := store - {ProfileKey};
            store := store - {LogsKey};
            store := store - {SessionKey};
            assert store == before - AppKeys;
          }
        }
      }
      isInitialized := true;
    }

    /** handleSignUp with the outcome of its two writes. */
    method HandleSignUp(patient: Patient, writes: WriteOutcome, codec: Codec)
      modifies this
      ensures Snapshot() == AfterSignUp(old(Snapshot()), patient, writes, codec)
    {
      var newLogs := SeedLogs(patient.patient_id);
      if writes == ProfileWriteFailed {
        return;
      }
      store := store[ProfileKey := codec.showPatient(patient)];
      if writes == LogsWriteFailed {
        return;
      }
      store := store[LogsKey := codec.showLogs(newLogs)];
      authPage := LoginPage;
    }

    /** handleLogin; `threw` reports a parse that throws out of the handler. */
    method HandleLogin(codec: Codec) returns (threw: bool)
      modifies this
      ensures Snapshot() == AfterLogin(old(Snapshot()), codec)
      ensures threw == LoginThrows(old(Snapshot()), codec)
    {
      threw := false;
      var savedProfileJson := GetItem(store, ProfileKey);
      var savedLogsJson := GetItem(store, LogsKey);
      if Truthy(savedProfileJson) && Truthy(savedLogsJson) {
        var patient := codec.parsePatient(savedProfileJson.value);
        var logs := codec.parseLogs(savedLogsJson.value);
        if patient.None? || logs.None? {
          return true;
        }
        patientProfile := patient;
        dailyLogs := logs.value;
        store := store[SessionKey := "true"];
      }
    }

    /** handleLogout. */
    method HandleLogout()
      modifies this
      ensures Snapshot() == AfterLogout(old(Snapshot()))
    {
      patientProfile := None;
      dailyLogs := [];
      store := store - {SessionKey};
    }

    /** The header's navigation. */
    method Navigate(page: Page)
      modifies this
      ensures Snapshot() == old(Snapshot()).(currentPage := page)
    {
      currentPage := page;
    }

    /** The login and sign-up pages' links to each other. */
    method ShowAuthPage(page: AuthPage)
      modifies this
      ensures Snapshot() == old(Snapshot()).(authPage := page)
    {
      authPage := page;
    }

    /** A login form submit wired to handleLogin, as the login screen renders it. */
    method SubmitLogin(form: Login.LoginForm, codec: Codec) returns (result: Login.LoginResult)
      modifies this, form
      ensures result == Login.LoginDecision(old(store), old(form.username), old(form.password), codec.parsePatient)
      ensures Snapshot() == AfterLoginSubmit(old(Snapshot()), old(form.username), old(form.password), codec)
      ensures form.username == old(form.username) && form.password == old(form.password)
      ensures form.error == (if result.Rejected? then result.message else "")
    {
      result := form.HandleSubmit(store, codec.parsePatient);
      if result == Login.CallsOnLogin {
        var _ := HandleLogin(codec);
      }
    }

    /** A sign-up form submit wired to handleSignUp, as the sign-up screen renders it. */
    method SubmitSignUp(form: SignUp.SignUpPage, id: string, parseFloat: string -> Number,
                        roundedBmi: (Number, Number) -> Number, writes: WriteOutcome, codec: Codec)
      returns (patient: Patient)
      modifies this
      ensures patient == SignUp.NewPatient(old(form.formData), id, parseFloat, roundedBmi)
      ensures Snapshot() == AfterSignUp(old(Snapshot()), patient, writes, codec)
    {
      patient := form.HandleSubmit(id, parseFloat, roundedBmi);
      HandleSignUp(patient, writes, codec);
    }

    function Screen(): Screen
      reads this
    {
      ScreenOf(Snapshot())
    }
  }
}
