/**
 * The login, registration, session-check and logout flows. The identity
 * framework (UserManager, SignInManager) is an oracle: a record of the answers
 * it gives for this call. The browser's localStorage, reached through the
 * JavaScript runtime, is a map from key to value held by the service.
 */
module Authentication {

  import opened Wrappers
  import opened Text
  import Sessions
  import Loading

  /** The identity row as the flows use it; `userName` is nullable in the framework. */
  datatype IdentityUser = IdentityUser(id: string, userName: Option<string>, email: Option<string>)

  /** What CheckPasswordSignInAsync reports: Succeeded, IsLockedOut, or neither. */
  datatype SignInResult = SignInSucceeded | SignInLockedOut | SignInFailed

  /** What UserManager.CreateAsync reports, with the descriptions of its errors. */
  datatype IdentityResult = IdentitySucceeded | IdentityFailed(errorDescriptions: seq<string>)

  /** The identity that RegisterAsync asks the framework to create. */
  datatype NewIdentity = NewIdentity(userName: string, email: string, emailConfirmed: bool)

  /** The identity framework's answers during one call. */
  datatype IdentityOracle = IdentityOracle(
    findByName: string -> Option<IdentityUser>,
    findByEmail: string -> Option<IdentityUser>,
    isLockedOut: IdentityUser -> bool,
    checkPassword: (IdentityUser, string) -> SignInResult,
    create: (NewIdentity, string) -> IdentityResult)

  datatype AuthenticationResult = AuthenticationResult(
    isAuthenticated: bool, username: string, sessionId: string, userId: string, errorMessage: string)

  datatype RegistrationResult = RegistrationResult(isSuccess: bool, message: string, errorMessage: string)

  datatype RegisterRequest = RegisterRequest(
    username: string, email: string, fullName: string, password: string, confirmPassword: string)

  const SessionIdKey: string := "sessionId"
  const UsernameKey: string := "username"
  const UserIdKey: string := "userId"

  const SigningInMessage: string := "Signing you in..."
  const CreatingSessionMessage: string := "Creating your session..."
  const CredentialsRequired: string := "Username and password are required"
  const InvalidCredentials: string := "Invalid username or password"
  const LockedBeforeCheck: string := "Account is temporarily locked. Please try again later."
  const LockedByCheck: string := "Account is temporarily locked due to multiple failed attempts."

  function NotAuthenticated(message: string): AuthenticationResult {
    AuthenticationResult(false, "", "", "", message)
  }

  /** The account a login names: looked up as a username first, as an email only when no user has that name. */
  function FindUser(identity: IdentityOracle, login: string): (found: Option<IdentityUser>)
    ensures found.None? <==> identity.findByName(login).None? && identity.findByEmail(login).None?
    ensures identity.findByName(login).Some? ==> found == identity.findByName(login)
    ensures identity.findByName(login).None? ==> found == identity.findByEmail(login)
  {
    match identity.findByName(login)
    case Some(u) => Some(u)
    case None => identity.findByEmail(login)
  }

  /** Which return of AuthenticateAsync a login reaches. */
  datatype LoginPath =
    | MissingCredentials
    | UnknownUser
    | LockedOutBeforeCheck(user: IdentityUser)
    | PasswordAccepted(user: IdentityUser)
    | LockedOutByCheck(user: IdentityUser)
    | PasswordRejected(user: IdentityUser)

  function LoginPathOf(username: string, password: string, identity: IdentityOracle): (path: LoginPath)
    ensures path.MissingCredentials? <==> IsBlank(username) || IsBlank(password)
    ensures path.UnknownUser? <==>
              !IsBlank(username) && !IsBlank(password) && FindUser(identity, username).None?
    ensures !path.MissingCredentials? && !path.UnknownUser? ==> FindUser(identity, username) == Some(path.user)
    ensures path.LockedOutBeforeCheck? <==>
              && !IsBlank(username) && !IsBlank(password) && FindUser(identity, username).Some?
              && identity.isLockedOut(FindUser(identity, username).value)
    ensures path.PasswordAccepted? <==>
              && !IsBlank(username) && !IsBlank(password) && FindUser(identity, username).Some?
              && !identity.isLockedOut(FindUser(identity, username).value)
              && identity.checkPassword(FindUser(identity, username).value, password).SignInSucceeded?
    ensures path.LockedOutByCheck? <==>
              && !IsBlank(username) && !IsBlank(password) && FindUser(identity, username).Some?
              && !identity.isLockedOut(FindUser(identity, username).value)
              && identity.checkPassword(FindUser(identity, username).value, password).SignInLockedOut?
    ensures path.PasswordRejected? <==>
              && !IsBlank(username) && !IsBlank(password) && FindUser(identity, username).Some?
              && !identity.isLockedOut(FindUser(identity, username).value)
              && identity.checkPassword(FindUser(identity, username).value, password).SignInFailed?
  {
    if IsBlank(username) || IsBlank(password) then MissingCredentials
    else match FindUser(identity, username)
      case None => UnknownUser
      case Some(u) =>
        if identity.isLockedOut(u) then LockedOutBeforeCheck(u)
        else match identity.checkPassword(u, password)
          case SignInSucceeded => PasswordAccepted(u)
          case SignInLockedOut => LockedOutByCheck(u)
          case SignInFailed => PasswordRejected(u)
  }

  /** The error message each failing path reports. */
  function LoginFailureMessage(path: LoginPath): string
    requires !path.PasswordAccepted?
  {
    match path
    case MissingCredentials => CredentialsRequired
    case UnknownUser => InvalidCredentials
    case LockedOutBeforeCheck(_) => LockedBeforeCheck
    case LockedOutByCheck(_) => LockedByCheck
    case PasswordRejected(_) => InvalidCredentials
  }

  /**
   * The LoadingStateChanged event raised when a login turns the indicator off:
   * none on the two paths that leave it on, otherwise (false, the message shown
   * at that moment), which is the session message once the password is accepted.
   */
  function SignInStopEvents(path: LoginPath): (events: seq<(bool, string)>)
    ensures events == [] <==> path.UnknownUser? || path.LockedOutBeforeCheck?
    ensures events != [] ==> events[0].0 == false
    ensures path.PasswordAccepted? ==> events == [(false, CreatingSessionMessage)]
  {
    if path.UnknownUser? || path.LockedOutBeforeCheck? then []
    else [(false, if path.PasswordAccepted? then CreatingSessionMessage else SigningInMessage)]
  }

  /**
   * From an idle indicator, the PropertyChanged notifications a login raises,
   * written out: the start sets the message and turns loading on; a rejected
   * login turns it off and restores the message; an accepted one first shows
   * the session message at 75 percent, and the stop then resets all three.
   */
  lemma SignInNotificationsFromIdle()
    ensures Loading.StartNotifications(Loading.Initial, SigningInMessage, 0) == ["LoadingMessage", "IsLoading"]
    ensures var started := Loading.Start(Loading.Initial, SigningInMessage, 0);
            && Loading.StopNotifications(started) == ["IsLoading", "LoadingMessage"]
            && Loading.UpdateNotifications(started, CreatingSessionMessage, 75) == ["LoadingMessage", "LoadingPercentage"]
            && Loading.StopNotifications(Loading.Update(started, CreatingSessionMessage, 75))
               == ["IsLoading", "LoadingMessage", "LoadingPercentage"]
  {
    assert SigningInMessage != Loading.DefaultMessage;
    assert CreatingSessionMessage != SigningInMessage && CreatingSessionMessage != Loading.DefaultMessage;
  }

  /**
   * The login ladder never reveals whether an account exists: a login that names
   * no account and one that names an account with a wrong password get the same
   * message; and the email is consulted only when no user has the given name.
   */
  lemma NoUserEnumeration(username: string, password: string, identity: IdentityOracle)
    requires !IsBlank(username) && !IsBlank(password)
    ensures var path := LoginPathOf(username, password, identity);
            (path.UnknownUser? || path.PasswordRejected?) ==> LoginFailureMessage(path) == InvalidCredentials
    ensures identity.findByName(username).Some? ==>
              LoginPathOf(username, password, identity) != UnknownUser
    ensures LoginPathOf(username, password, identity).UnknownUser? <==>
              identity.findByName(username).None? && identity.findByEmail(username).None?
  {
  }

  /** A blank field (empty or white space only) ends the login before the identity store is asked. */
  lemma BlankCredentialsNeverReachTheStore(username: string, password: string, a: IdentityOracle, b: IdentityOracle)
    requires IsBlank(username) || IsBlank(password)
    ensures LoginPathOf(username, password, a) == LoginPathOf(username, password, b) == MissingCredentials
  {
  }

  class AuthenticationService {
    /** The shared session store (a static dictionary in the application). */
    const sessionService: Sessions.SessionService
    const loadingService: Loading.LoadingService
    /** The browser's localStorage. */
    var localStorage: map<string, string>
    /** The identities the user manager has created through RegisterAsync. */
    var createdIdentities: seq<NewIdentity>

    constructor (sessionService: Sessions.SessionService, loadingService: Loading.LoadingService,
                 browserStorage: map<string, string>)
      ensures this.sessionService == sessionService && this.loadingService == loadingService
      ensures localStorage == browserStorage && createdIdentities == []
    {
      this.sessionService := sessionService;
      this.loadingService := loadingService;
      localStorage := browserStorage;
      createdIdentities := [];
    }

    /** `localStorage.getItem(key) ?? string.Empty` */
    function Stored(key: string): string
      reads this
    {
      if key in localStorage then localStorage[key] else ""
    }

    method AuthenticateAsync(username: string, password: string, identity: IdentityOracle, newSessionId: string)
      returns (result: AuthenticationResult)
      modifies this, sessionService, loadingService
      ensures createdIdentities == old(createdIdentities)
      ensures var path := LoginPathOf(username, password, identity);
              && result.isAuthenticated == path.PasswordAccepted?
              && (!path.PasswordAccepted? ==>
                    && result == NotAuthenticated(LoginFailureMessage(path))
                    && sessionService.activeSessions == old(sessionService.activeSessions)
                    && localStorage == old(localStorage))
              && (path.PasswordAccepted? ==>
                    var name := path.user.userName.GetOr("");
                    && result == AuthenticationResult(true, name, newSessionId, path.user.id, "")
                    && sessionService.activeSessions == old(sessionService.activeSessions)[newSessionId := name]
                    && localStorage == old(localStorage)[SessionIdKey := newSessionId][UsernameKey := name][UserIdKey := path.user.id])
              && loadingService.State() ==
                   (if path.UnknownUser? || path.LockedOutBeforeCheck? then Loading.LoadingState(true, SigningInMessage, 0)
                    else Loading.Initial)
      ensures var path := LoginPathOf(username, password, identity);
              var before := old(loadingService.State());
              var started := Loading.Start(before, SigningInMessage, 0);
              var updated := Loading.Update(started, CreatingSessionMessage, 75);
              && loadingService.stateChanges == old(loadingService.stateChanges)
                   + Loading.StateChangedEvents(before, started, SigningInMessage)
                   + SignInStopEvents(path)
              && loadingService.propertyChanges == old(loadingService.propertyChanges)
                   + Loading.StartNotifications(before, SigningInMessage, 0)
                   + (if path.UnknownUser? || path.LockedOutBeforeCheck? then []
                      else if path.PasswordAccepted? then
                        Loading.UpdateNotifications(started, CreatingSessionMessage, 75) + Loading.StopNotifications(updated)
                      else Loading.StopNotifications(started))
    {
      loadingService.StartLoading(SigningInMessage, 0);
      if IsBlank(username) || IsBlank(password) {
        loadingService.StopLoading();
        return NotAuthenticated(CredentialsRequired);
      }
      var user := FindUser(identity, username);
      if user.None? {
        // the indicator is left on here
        return NotAuthenticated(InvalidCredentials);
      }
      if identity.isLockedOut(user.value) {
        // and here
        return NotAuthenticated(LockedBeforeCheck);
      }
      var outcome := identity.checkPassword(user.value, password);
      if outcome.SignInSucceeded? {
        loadingService.UpdateLoading(CreatingSessionMessage, 75);
        var name := user.value.userName.GetOr("");
        var sessionId := CreateSessionAsync(user.value.id, name, newSessionId);
        loadingService.StopLoading();
        return AuthenticationResult(true, name, sessionId, user.value.id, "");
      } else if outcome.SignInLockedOut? {
        loadingService.StopLoading();
        return NotAuthenticated(LockedByCheck);
      } else {
        loadingService.StopLoading();
        return NotAuthenticated(InvalidCredentials);
      }
    }

    method RegisterAsync(request: RegisterRequest, identity: IdentityOracle) returns (result: RegistrationResult)
      modifies this
      ensures localStorage == old(localStorage)
      ensures IsBlank(request.username) || IsBlank(request.email) || IsBlank(request.password) ==>
                result == RegistrationResult(false, "", "All fields are required")
      ensures var newIdentity := NewIdentity(request.username, request.email, false);
              && (result.isSuccess <==>
                    && !IsBlank(request.username) && !IsBlank(request.email) && !IsBlank(request.password)
                    && identity.findByName(request.username).None?
                    && identity.findByEmail(request.email).None?
                    && identity.create(newIdentity, request.password).IdentitySucceeded?)
              && createdIdentities == old(createdIdentities) + (if result.isSuccess then [newIdentity] else [])
      ensures !IsBlank(request.username) && !IsBlank(request.email) && !IsBlank(request.password) ==>
                (identity.findByName(request.username).Some? ==>
                   result == RegistrationResult(false, "", "Username already exists"))
                && (identity.findByName(request.username).None? && identity.findByEmail(request.email).Some? ==>
                   result == RegistrationResult(false, "", "Email address is already registered"))
      ensures var created := identity.create(NewIdentity(request.username, request.email, false), request.password);
              !IsBlank(request.username) && !IsBlank(request.email) && !IsBlank(request.password)
              && identity.findByName(request.username).None? && identity.findByEmail(request.email).None?
              && created.IdentityFailed? ==>
                result == RegistrationResult(false, "", "Registration failed: " + Join(", ", created.errorDescriptions))
      ensures result.isSuccess ==> result == RegistrationResult(true, "Registration successful", "")
    {
      if IsBlank(request.username) || IsBlank(request.email) || IsBlank(request.password) {
        return RegistrationResult(false, "", "All fields are required");
      }
      if identity.findByName(request.username).Some? {
        return RegistrationResult(false, "", "Username already exists");
      }
      if identity.findByEmail(request.email).Some? {
        return RegistrationResult(false, "", "Email address is already registered");
      }
      var newIdentity := NewIdentity(request.username, request.email, false);
      var created := identity.create(newIdentity, request.password);
      if created.IdentitySucceeded? {
        createdIdentities := createdIdentities + [newIdentity];
        return RegistrationResult(true, "Registration successful", "");
      } else {
        return RegistrationResult(false, "", "Registration failed: " + Join(", ", created.errorDescriptions));
      }
    }

    /** Authenticated exactly when the three stored values are present and the stored session is live. */
    method CheckAuthenticationAsync() returns (result: AuthenticationResult)
      ensures result.isAuthenticated <==>
                && Stored(SessionIdKey) != "" && Stored(UsernameKey) != "" && Stored(UserIdKey) != ""
                && Stored(SessionIdKey) in sessionService.activeSessions
      ensures result.isAuthenticated ==>
                result == AuthenticationResult(true, Stored(UsernameKey), Stored(SessionIdKey), Stored(UserIdKey), "")
      ensures !result.isAuthenticated ==> result == NotAuthenticated("")
    {
      var sessionId := Stored(SessionIdKey);
      var username := Stored(UsernameKey);
      var userId := Stored(UserIdKey);
      if sessionId == "" || username == "" || userId == "" {
        return NotAuthenticated("");
      }
      var isValid := ValidateSessionAsync(sessionId);
      if isValid {
        return AuthenticationResult(true, username, sessionId, userId, "");
      }
      return NotAuthenticated("");
    }

    /** Binds the fresh id to the user in the store and mirrors the three values into the browser. */
    method CreateSessionAsync(userId: string, username: string, newSessionId: string) returns (sessionId: string)
      modifies this, sessionService
      ensures sessionId == newSessionId
      ensures sessionService.activeSessions == old(sessionService.activeSessions)[sessionId := username]
      ensures localStorage == old(localStorage)[SessionIdKey := sessionId][UsernameKey := username][UserIdKey := userId]
      ensures createdIdentities == old(createdIdentities)
    {
      sessionId := newSessionId;
      sessionService.CreateSession(sessionId, username);
      localStorage := localStorage[SessionIdKey := sessionId];
      localStorage := localStorage[UsernameKey := username];
      localStorage := localStorage[UserIdKey := userId];
    }

    /** Ends the stored session (when there is one) and clears the three browser values. */
    method LogoutAsync()
      modifies this, sessionService
      ensures var stored := old(Stored(SessionIdKey));
              sessionService.activeSessions ==
                (if stored != "" then old(sessionService.activeSessions) - {stored} else old(sessionService.activeSessions))
      ensures localStorage == old(localStorage) - {SessionIdKey, UsernameKey, UserIdKey}
      ensures createdIdentities == old(createdIdentities)
    {
      var sessionId := if SessionIdKey in localStorage then Some(localStorage[SessionIdKey]) else None;
      if sessionId.Some? && sessionId.value != "" {
        sessionService.RemoveSession(sessionId.value);
      }
      localStorage := localStorage - {SessionIdKey};
      localStorage := localStorage - {UsernameKey};
      localStorage := localStorage - {UserIdKey};
    }

    /** A session id is valid when it is non-empty and live in the store. */
    method ValidateSessionAsync(sessionId: string) returns (isValid: bool)
      ensures isValid <==> sessionId != "" && sessionId in sessionService.activeSessions
    {
      if sessionId == "" {
        return false;
      }
      isValid := sessionService.IsUserLoggedIn(sessionId);
    }
  }

  /**
   * The lifecycle through the service's own operations: after a successful login
   * the browser's values check out as authenticated, and after logout they do not.
   */
  method LoginCheckLogout(auth: AuthenticationService, username: string, password: string,
                          identity: IdentityOracle, newSessionId: string)
    requires LoginPathOf(username, password, identity).PasswordAccepted?
    requires newSessionId != "" && identity.findByName(username).Some? && identity.findByName(username).value.id != ""
    requires identity.findByName(username).value.userName.Some? && identity.findByName(username).value.userName.value != ""
    modifies auth, auth.sessionService, auth.loadingService
    ensures newSessionId !in auth.sessionService.activeSessions
  {
    var login := auth.AuthenticateAsync(username, password, identity, newSessionId);
    var check := auth.CheckAuthenticationAsync();
    assert check.isAuthenticated && check.sessionId == login.sessionId;
    auth.LogoutAsync();
    check := auth.CheckAuthenticationAsync();
    assert !check.isAuthenticated;
  }
}
