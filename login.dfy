/**
 * The login page (components/Login.tsx): the credential check against the
 * profile kept in storage, and the form state it updates.
 */
module Login {
  import opened Types
  import opened Storage

  const NoAccountMessage := "No account found. Please sign up."
  const InvalidCredentialsMessage := "Invalid username or password."

  /**
   * `savedProfile.username === username && savedProfile.password === password`:
   * a profile without a username or password never matches.
   */
  predicate CredentialsMatch(profile: Patient, username: string, password: string)
    ensures CredentialsMatch(profile, username, password) ==>
      profile.username.Some? && profile.password.Some?
  {
    profile.username == Some(username) && profile.password == Some(password)
  }

  /** How a submit ends: the login callback is called, the form shows a message, or the parse throws out of the handler. */
  datatype LoginResult = CallsOnLogin | Rejected(message: string) | Throws

  /**
   * handleSubmit's decision. Without a stored profile it reports that there
   * is no account; a stored profile that does not parse throws; otherwise
   * the callback runs exactly when the credentials match, and the form
   * reports invalid credentials when they do not.
   */
  function LoginDecision(store: Store, username: string, password: string,
                         parsePatient: string -> Option<Patient>): (r: LoginResult)
    ensures r == Rejected(NoAccountMessage) <==> !Stored(store, ProfileKey)
    ensures r == Throws <==> Stored(store, ProfileKey) && parsePatient(store[ProfileKey]).None?
    ensures r == CallsOnLogin <==>
      && Stored(store, ProfileKey)
      && parsePatient(store[ProfileKey]).Some?
      && CredentialsMatch(parsePatient(store[ProfileKey]).value, username, password)
    ensures r == Rejected(InvalidCredentialsMessage) <==>
      && Stored(store, ProfileKey)
      && parsePatient(store[ProfileKey]).Some?
      && !CredentialsMatch(parsePatient(store[ProfileKey]).value, username, password)
  {
    if !Stored(store, ProfileKey) then Rejected(NoAccountMessage)
    else match parsePatient(store[ProfileKey])
      case None => Throws
      case Some(profile) =>
        if CredentialsMatch(profile, username, password) then CallsOnLogin
        else Rejected(InvalidCredentialsMessage)
  }

  /** A store holding no profile rejects every login with the no-account message. */
  lemma NoProfileNoLogin(store: Store, username: string, password: string,
                         parsePatient: string -> Option<Patient>)
    requires ProfileKey !in store
    ensures LoginDecision(store, username, password, parsePatient) == Rejected(NoAccountMessage)
  {
  }

  class LoginForm {
    var username: string
    var password: string
    var error: string

    constructor ()
      ensures username == "" && password == "" && error == ""
    {
      username, password, error := "", "", "";
    }

    method SetUsername(text: string)
      modifies this
      ensures username == text && password == old(password) && error == old(error)
    {
      username := text;
    }

    method SetPassword(text: string)
      modifies this
      ensures password == text && username == old(username) && error == old(error)
    {
      password := text;
    }

    /**
     * handleSubmit: the error is first reset to "", then set to the
     * rejection's message; a successful check and a throwing parse leave it
     * empty. The result says whether the login callback runs.
     */
    method HandleSubmit(store: Store, parsePatient: string -> Option<Patient>) returns (r: LoginResult)
      modifies this
      ensures r == LoginDecision(store, username, password, parsePatient)
      ensures error == (if r.Rejected? then r.message else "")
      ensures username == old(username) && password == old(password)
    {
      error := "";
      var saved := GetItem(store, ProfileKey);
      if !Truthy(saved) {
        error := NoAccountMessage;
        return Rejected(NoAccountMessage);
      }
      var parsed := parsePatient(saved.value);
      if parsed.None? {
        return Throws;
      }
      if parsed.value.username == Some(username) && parsed.value.password == Some(password) {
        r := CallsOnLogin;
      } else {
        error := InvalidCredentialsMessage;
        r := Rejected(InvalidCredentialsMessage);
      }
    }

    /** The message line is rendered only for a non-empty error. */
    predicate ShowsError()
      reads this
    {
      error != ""
    }
  }
}
