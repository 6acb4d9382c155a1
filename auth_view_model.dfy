/**
 * The login controller: it validates the typed credentials, calls the
 * repository, saves the session on success, and projects the stored
 * session into the screen state.
 */
module AuthUi {
  import opened Wrappers
  import opened Text
  import opened SessionStore
  import AuthRepository

  datatype AuthUiState = AuthUiState(
    username: string,
    password: string,
    isLoading: bool,
    errorMessage: Option<string>,
    isLoggedIn: bool,
    userName: string)

  const INITIAL: AuthUiState := AuthUiState("", "", false, None, false, "")
  const INVALID_CREDENTIALS := "Ingrese usuario y contraseña válidos"
  const UNKNOWN_ERROR := "Error desconocido"

  /**
   * `observeSession`'s update for one emitted value. The username field is
   * overwritten only when there is a session.
   */
  function Projected(ui: AuthUiState, session: Option<AuthSession>): (r: AuthUiState)
    ensures r.isLoggedIn <==> session.Some?
    ensures !r.isLoading && r.password == ui.password
    ensures session.None? ==> r.userName == "" && r.username == ui.username && r.errorMessage == ui.errorMessage
    ensures session.Some? ==> r.username == session.value.username && r.errorMessage.None?
    ensures session.Some? && !IsBlank(session.value.userName) ==> r.userName == session.value.userName
    ensures session.Some? && IsBlank(session.value.userName) ==> r.userName == session.value.username
  {
    match session
    case None => ui.(isLoggedIn := false, userName := "", isLoading := false)
    case Some(s) =>
      ui.(isLoggedIn := true,
          userName := if IsBlank(s.userName) then s.username else s.userName,
          username := s.username,
          isLoading := false,
          errorMessage := None)
  }

  /**
   * The session `login` builds, as written: the result's token, refresh
   * token, display name and raw data with the credentials used, and no
   * user id, whatever the result carries.
   */
  function SessionAsWritten(result: AuthRepository.AuthResult, username: string, password: string): (s: AuthSession)
    ensures s.userId.None?
    ensures s.token == result.token && s.refreshToken == result.refreshToken
    ensures s.userName == result.userName && s.rawUserData == result.rawUserData
    ensures s.username == username && s.password == Some(password)
  {
    AuthSession(result.token, result.refreshToken, result.userName, result.rawUserData, username, Some(password), None)
  }

  /** The session `login` evidently means to build: the same, carrying the result's user id. */
  function NewSession(result: AuthRepository.AuthResult, username: string, password: string): (s: AuthSession)
    ensures s.userId == result.userId
    ensures s == SessionAsWritten(result, username, password).(userId := result.userId)
  {
    AuthSession(result.token, result.refreshToken, result.userName, result.rawUserData, username, Some(password), result.userId)
  }

  /**
   * As written, the user id the server sent never reaches the store: on a
   * store that holds no user id, the session read back after login has
   * none, so the telemetry screen never learns who is reporting.
   */
  lemma AsWrittenDropsUserId(prefs: map<string, string>, result: AuthRepository.AuthResult, username: string, password: string)
    requires USER_ID !in prefs && result.userId.Some?
    ensures SessionOf(Saved(prefs, SessionAsWritten(result, username, password))).value.userId == None
    ensures SessionOf(Saved(prefs, NewSession(result, username, password))).value.userId == result.userId
  {
    ReadAfterSave(prefs, SessionAsWritten(result, username, password));
    ReadAfterSave(prefs, NewSession(result, username, password));
  }

  /** The example answer with `data.id == "42"`: as written, the stored session has no user id. */
  lemma AsWrittenDropsExampleUserId(serialize: AuthRepository.LoginResponse -> string)
    ensures var r := AuthRepository.Login("ana", AuthRepository.HttpResponse(200, "OK", Some(AuthRepository.ExampleBody()), None), serialize);
            r.Ok? && r.value.userId == Some("42")
            && SessionOf(Saved(map[], SessionAsWritten(r.value, "ana", "pw"))).value.userId == None
            && SessionOf(Saved(map[], NewSession(r.value, "ana", "pw"))).value.userId == Some("42")
  {
    AuthRepository.ExampleLogin(serialize);
    var r := AuthRepository.Login("ana", AuthRepository.HttpResponse(200, "OK", Some(AuthRepository.ExampleBody()), None), serialize);
    AsWrittenDropsUserId(map[], r.value, "ana", "pw");
  }

  /**
   * Logging in and then observing the store shows the user as logged in
   * under the server's display name, or the typed username when that is
   * blank; the stored session keeps the credentials that were used.
   */
  lemma LoginThenObserve(prefs: map<string, string>, ui: AuthUiState, result: AuthRepository.AuthResult,
                         username: string, password: string)
    ensures var s := SessionOf(Saved(prefs, SessionAsWritten(result, username, password)));
            s.Some? && s.value.token == result.token && s.value.username == username
            && s.value.password == Some(password)
            && Projected(ui, s).isLoggedIn
            && Projected(ui, s).userName == (if IsBlank(result.userName) then username else result.userName)
  {
    ReadAfterSave(prefs, SessionAsWritten(result, username, password));
  }

  class AuthViewModel {
    var ui: AuthUiState
    const store: AuthDataStore

    constructor (store: AuthDataStore)
      ensures this.store == store && ui == INITIAL
    {
      this.store := store;
      ui := INITIAL;
    }

    /** One emission of `authSessionFlow` reaching `observeSession`. */
    method ObserveSession()
      modifies this`ui
      ensures ui == Projected(old(ui), store.Session())
    {
      ui := Projected(ui, store.Session());
    }

    /** `onUsernameChanged`: only the username field changes. */
    method OnUsernameChanged(value: string)
      modifies this`ui
      ensures ui == old(ui).(username := value)
    {
      ui := ui.(username := value);
    }

    /** `onPasswordChanged`: only the password field changes. */
    method OnPasswordChanged(value: string)
      modifies this`ui
      ensures ui == old(ui).(password := value)
    {
      ui := ui.(password := value);
    }

    /**
     * `login`. `outcome` is what `repository.login` returns or the message
     * of what it throws. `atCall` is the screen state at the moment the
     * repository is called, or `None` when it is not called. The session
     * saved is the one built as written, without the result's user id.
     */
    method Login(outcome: Result<AuthRepository.AuthResult, Option<string>>)
      returns (ghost atCall: Option<AuthUiState>)
      modifies this`ui, store
      ensures var username := Trim(old(ui).username);
              var password := old(ui).password;
              if IsBlank(username) || IsBlank(password) then
                atCall.None? && ui == old(ui).(errorMessage := Some(INVALID_CREDENTIALS))
                && store.prefs == old(store.prefs)
              else
                atCall == Some(old(ui).(isLoading := true, errorMessage := None))
                && match outcome
                   case Ok(result) =>
                     store.prefs == Saved(old(store.prefs), SessionAsWritten(result, username, password))
                     && ui == atCall.value.(isLoading := false)
                   case Err(message) =>
                     store.prefs == old(store.prefs)
                     && ui == atCall.value.(isLoading := false, errorMessage := Some(message.GetOr(UNKNOWN_ERROR)))
    {
      var username := Trim(ui.username);
      var password := ui.password;
      if IsBlank(username) || IsBlank(password) {
        ui := ui.(errorMessage := Some(INVALID_CREDENTIALS));
        return None;
      }
      ui := ui.(isLoading := true, errorMessage := None);
      atCall := Some(ui);
      match outcome
      case Ok(result) =>
        store.SaveSession(SessionAsWritten(result, username, password));
        ui := ui.(isLoading := false);
      case Err(message) =>
        ui := ui.(isLoading := false, errorMessage := Some(message.GetOr(UNKNOWN_ERROR)));
    }

    /** `login` as it evidently means to be: the same, saving the session with the user id. */
    method LoginCorrected(outcome: Result<AuthRepository.AuthResult, Option<string>>)
      returns (ghost atCall: Option<AuthUiState>)
      modifies this`ui, store
      ensures var username := Trim(old(ui).username);
              var password := old(ui).password;
              if IsBlank(username) || IsBlank(password) then
                atCall.None? && ui == old(ui).(errorMessage := Some(INVALID_CREDENTIALS))
                && store.prefs == old(store.prefs)
              else
                atCall == Some(old(ui).(isLoading := true, errorMessage := None))
                && match outcome
                   case Ok(result) =>
                     store.prefs == Saved(old(store.prefs), NewSession(result, username, password))
                     && ui == atCall.value.(isLoading := false)
                   case Err(message) =>
                     store.prefs == old(store.prefs)
                     && ui == atCall.value.(isLoading := false, errorMessage := Some(message.GetOr(UNKNOWN_ERROR)))
    {
      var username := Trim(ui.username);
      var password := ui.password;
      if IsBlank(username) || IsBlank(password) {
        ui := ui.(errorMessage := Some(INVALID_CREDENTIALS));
        return None;
      }
      ui := ui.(isLoading := true, errorMessage := None);
      atCall := Some(ui);
      match outcome
      case Ok(result) =>
        store.SaveSession(NewSession(result, username, password));
        ui := ui.(isLoading := false);
      case Err(message) =>
        ui := ui.(isLoading := false, errorMessage := Some(message.GetOr(UNKNOWN_ERROR)));
    }

    /** `logout`: the store is cleared, so the next emission is "no session". */
    method Logout()
      modifies store
      ensures store.prefs == Cleared(old(store.prefs)) && store.Session() == None
    {
      store.Clear();
    }
  }
}
