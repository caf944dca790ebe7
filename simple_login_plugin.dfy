/**
 The FreeAdmin login plugin: a "before" interceptor on the admin Auth::login
 call. When the application is not in production mode and the deployment
 configuration sets `backend/auth` to exactly `false`, it skips password
 checking, picks an existing admin account (by email, then by username, then
 the first account in the store), forces a session for it and hands the real
 login the empty credentials ('', ''); otherwise it passes the credentials on.
 */
module FreeAdmin {
  import opened Framework

  const ModeProduction := "production"
  const AuthConfigPath := "backend/auth"
  const LoginSuccessEvent := "backend_auth_user_login_success"
  const EmailField := "email"
  const UsernameField := "username"

  /** The keys of the user-data array handed to the auth storage when there is no credential storage. */
  const UserDataKeys: set<string> := {UserIdField, "username", "email", "firstname", "lastname", "is_active"}

  /** Deployment configuration, flattened to '/'-separated paths. */
  type FlatConfig = map<string, PhpValue>

  /** The kinds of line the plugin writes to the error log. */
  datatype LogEntry =
    | BypassAttempt(username: string)
    | BypassedUsing(email: PhpValue)
    | NoAdminUserFound
    | BypassError
    | LoginError

  /** Outcome of the account selection step. */
  datatype Selection = Found(user: Row) | NoAdminUser | LookupFailed

  /**
   The bypass decision: production never bypasses, otherwise only a
   configuration value that is identically `false` does, and a mode or
   configuration read that throws means "auth enabled".
   */
  function IsAuthModuleDisabled(mode: Reading<string>, config: Reading<FlatConfig>): (r: bool)
    ensures mode == Value(ModeProduction) ==> !r
    ensures mode.Raised? ==> !r
    ensures config.Raised? ==> !r
    ensures r ==> config.Value? && Get(config.value, AuthConfigPath) == Bool(false)
    ensures mode.Value? && mode.value != ModeProduction && config.Value? ==>
              (r <==> Get(config.value, AuthConfigPath) == Bool(false))
  {
    match mode
    case Raised => false
    case Value(m) =>
      if m == ModeProduction then false
      else
        match config
        case Raised => false
        case Value(c) => Get(c, AuthConfigPath) == Bool(false)
  }

  /** The comparison is strict: no other value, falsy or not, and no missing key turns the bypass on. */
  lemma OnlyStrictFalseDisables(mode: Reading<string>, config: FlatConfig)
    requires Get(config, AuthConfigPath) != Bool(false)
    ensures !IsAuthModuleDisabled(mode, Value(config))
  {
  }

  /** PHP's empty() on the username string. */
  predicate IsEmpty(username: string)
  {
    !Truthy(Str(username))
  }

  /**
   The account the bypass logs into: the first row whose email is the
   username, else the first whose username is, else the first row of the
   store; a tier only counts when its item has an id. The two lookups run
   only for a non-empty username.
   */
  function SelectedAccount(rows: seq<Row>, username: string): (r: Option<Row>)
    ensures r.Some? ==> r.value in rows && HasId(r.value)
    ensures r.Some? ==> Get(r.value, EmailField) == Str(username) ||
                        Get(r.value, UsernameField) == Str(username) ||
                        r.value == rows[0]
    ensures rows != [] && HasId(rows[0]) ==> r.Some?
  {
    var byEmail := FirstItem(rows, FieldEquals(EmailField, username));
    var byUsername := FirstItem(rows, FieldEquals(UsernameField, username));
    var first := FirstItem(rows, All);
    if !IsEmpty(username) && HasId(byEmail) then Some(byEmail)
    else if !IsEmpty(username) && HasId(byUsername) then Some(byUsername)
    else if HasId(first) then Some(first)
    else None
  }

  /** An account whose email is the username, and is the first such, wins over every other tier. */
  lemma EmailMatchWins(rows: seq<Row>, username: string, i: nat)
    requires !IsEmpty(username)
    requires i < |rows| && Get(rows[i], EmailField) == Str(username) && HasId(rows[i])
    requires forall j :: 0 <= j < i ==> Get(rows[j], EmailField) != Str(username)
    ensures SelectedAccount(rows, username) == Some(rows[i])
  {
  }

  /**
   When the email lookup yields no item with an id, the first account whose
   username is the username wins over the fallback.
   */
  lemma UsernameMatchBeatsFallback(rows: seq<Row>, username: string, i: nat)
    requires !IsEmpty(username)
    requires !HasId(FirstItem(rows, FieldEquals(EmailField, username)))
    requires i < |rows| && Get(rows[i], UsernameField) == Str(username) && HasId(rows[i])
    requires forall j :: 0 <= j < i ==> Get(rows[j], UsernameField) != Str(username)
    ensures SelectedAccount(rows, username) == Some(rows[i])
  {
  }

  /** A username that matches neither field falls back to the first account of the store. */
  lemma UnmatchedUsernameFallsBack(rows: seq<Row>, username: string)
    requires forall j :: 0 <= j < |rows| ==>
               Get(rows[j], EmailField) != Str(username) && Get(rows[j], UsernameField) != Str(username)
    ensures SelectedAccount(rows, username) == (if rows != [] && HasId(rows[0]) then Some(rows[0]) else None)
  {
  }

  /** An empty username ("" or "0") skips both lookups and goes straight to the first account. */
  lemma EmptyUsernameTakesFirstAccount(rows: seq<Row>, username: string)
    requires IsEmpty(username)
    ensures SelectedAccount(rows, username) == (if rows != [] && HasId(rows[0]) then Some(rows[0]) else None)
  {
  }

  /** A store without any account that has an id yields no account, so no login is attempted. */
  lemma NoAccountWithoutIds(rows: seq<Row>, username: string)
    requires forall j :: 0 <= j < |rows| ==> !HasId(rows[j])
    ensures SelectedAccount(rows, username) == None
  {
  }

  /**
   The selection as the plugin performs it: one collection read per tier,
   reassigning the candidate. Any read that throws ends the selection.
   */
  method SelectAdminUser(users: Reading<seq<Row>>, username: string) returns (s: Selection)
    ensures users.Raised? <==> s == LookupFailed
    ensures users.Value? ==>
              s == (match SelectedAccount(users.value, username)
                    case Some(u) => Found(u)
                    case None => NoAdminUser)
  {
    if users.Raised? {
      return LookupFailed;
    }
    var rows := users.value;
    var adminUser: Option<Row> := None;
    if !IsEmpty(username) {
      adminUser := Some(FirstItem(rows, FieldEquals(EmailField, username)));
      if adminUser.None? || !HasId(adminUser.value) {
        adminUser := Some(FirstItem(rows, FieldEquals(UsernameField, username)));
      }
    }
    if adminUser.None? || !HasId(adminUser.value) {
      adminUser := Some(FirstItem(rows, All));
    }
    if adminUser.Some? && HasId(adminUser.value) {
      s := Found(adminUser.value);
    } else {
      s := NoAdminUser;
    }
  }

  /** The six-key array built from the user's getters for the storage without credentials. */
  function UserData(user: Row): (m: Row)
    ensures m.Keys == UserDataKeys
    ensures forall k :: k in m ==> m[k] == Get(user, k)
  {
    map[UserIdField := Get(user, UserIdField),
        "username" := Get(user, "username"),
        "email" := Get(user, "email"),
        "firstname" := Get(user, "firstname"),
        "lastname" := Get(user, "lastname"),
        "is_active" := Get(user, "is_active")]
  }

  /** The credential storage's data after setData(getData()) and setId(getId()). */
  function CredentialData(user: Row): (d: Row)
    ensures d.Keys == user.Keys + {UserIdField}
    ensures HasId(user) ==> d == user
    ensures Get(d, UserIdField) == Get(user, UserIdField)
  {
    user[UserIdField := Get(user, UserIdField)]
  }

  /** Both login branches record the same id, username, email, first and last name and active flag. */
  lemma BranchesAgreeOnIdentity(user: Row)
    requires HasId(user)
    ensures forall k :: k in UserDataKeys ==> Get(CredentialData(user), k) == Get(UserData(user), k)
  {
  }

  class SimpleLoginPlugin {
    /** The application mode, as the state object reports it (or throws). */
    const appMode: Reading<string>
    const deploymentConfig: Reading<FlatConfig>
    /** The admin-user collection, as the user factory's collection reads it (or throws). */
    const adminUsers: Reading<seq<Row>>
    const eventManager: EventManager
    /** Lines written to the error log, in order. */
    var log: seq<LogEntry>

    constructor (appMode: Reading<string>, deploymentConfig: Reading<FlatConfig>,
                 adminUsers: Reading<seq<Row>>, eventManager: EventManager)
      ensures this.appMode == appMode && this.deploymentConfig == deploymentConfig
      ensures this.adminUsers == adminUsers && this.eventManager == eventManager
      ensures log == []
    {
      this.appMode := appMode;
      this.deploymentConfig := deploymentConfig;
      this.adminUsers := adminUsers;
      this.eventManager := eventManager;
      log := [];
    }

    /** The log lines one forced login adds: an error line exactly when processLogin throws. */
    function LoginLog(subject: Auth): seq<LogEntry>
    {
      if subject.authStorage != null && subject.authStorage.loginRaises then [LoginError] else []
    }

    /** The log lines one bypass adds after its opening line. */
    function BypassLog(subject: Auth, username: string): seq<LogEntry>
    {
      match adminUsers
      case Raised => [BypassError]
      case Value(rows) =>
        match SelectedAccount(rows, username)
        case None => [NoAdminUserFound]
        case Some(user) => LoginLog(subject) + [BypassedUsing(Get(user, EmailField))]
    }

    /**
     The whole state change of a forced login as user: the credential storage
     (when present) holds the user's data; the auth storage (when present)
     gets the credential storage as its user, or the six-key user data when
     there is no credential storage, and is logged in unless processLogin
     throws; one success event follows a login that did not throw.
     */
    twostate predicate ForcedLogin(subject: Auth, user: Row)
      reads subject.Storages(), eventManager
    {
      var cs, st := subject.credentialStorage, subject.authStorage;
      (cs != null ==> cs.data == CredentialData(user)) &&
      (st != null ==>
         st.user == (if cs != null then cs else old(st.user)) &&
         st.userData == (if cs != null then old(st.userData) else Some(UserData(user))) &&
         st.loginProcessed == (old(st.loginProcessed) || !st.loginRaises)) &&
      eventManager.dispatched ==
        old(eventManager.dispatched) +
        (if st == null || st.loginRaises then []
         else [Event(LoginSuccessEvent, if cs != null then Credential(cs) else RawUser(user))])
    }

    /** The session after a bypass: a forced login as the selected account, or no change at all. */
    twostate predicate SessionAfterBypass(subject: Auth, username: string)
      reads subject.Storages(), eventManager
    {
      if adminUsers.Value? && SelectedAccount(adminUsers.value, username).Some? then
        ForcedLogin(subject, SelectedAccount(adminUsers.value, username).value)
      else
        unchanged(subject.Storages()) && unchanged(eventManager)
    }

    /**
     beforeLogin: the arguments the real login receives. A bypass returns
     ('', '') whatever the selection and login steps did; otherwise the
     credentials pass through and nothing changes.
     */
    method BeforeLogin(subject: Auth, username: string, password: string) returns (u: string, p: string)
      modifies this, subject.Storages(), eventManager
      ensures IsAuthModuleDisabled(appMode, deploymentConfig) ==>
                u == "" && p == "" &&
                log == old(log) + [BypassAttempt(username)] + BypassLog(subject, username) &&
                SessionAfterBypass(subject, username)
      ensures !IsAuthModuleDisabled(appMode, deploymentConfig) ==>
                u == username && p == password && log == old(log) &&
                unchanged(subject.Storages()) && unchanged(eventManager)
      ensures appMode == Value(ModeProduction) ==>
                u == username && p == password && log == old(log) &&
                unchanged(subject.Storages()) && unchanged(eventManager)
    {
      if IsAuthModuleDisabled(appMode, deploymentConfig) {
        log := log + [BypassAttempt(username)];
        BypassAuthentication(subject, username);
        return "", "";
      }
      return username, password;
    }

    /** bypassAuthentication: select an account and, when one is found, force a login as it. */
    method BypassAuthentication(subject: Auth, username: string)
      modifies this, subject.Storages(), eventManager
      ensures log == old(log) + BypassLog(subject, username)
      ensures SessionAfterBypass(subject, username)
    {
      var selection := SelectAdminUser(adminUsers, username);
      match selection
      case LookupFailed =>
        log := log + [BypassError];
      case NoAdminUser =>
        log := log + [NoAdminUserFound];
      case Found(user) =>
        SetCredentialStorageAndLogin(subject, user);
        log := log + [BypassedUsing(Get(user, EmailField))];
    }

    /** setCredentialStorageAndLogin: the two-branch session update and the success event. */
    method SetCredentialStorageAndLogin(subject: Auth, user: Row)
      modifies this, subject.Storages(), eventManager
      ensures ForcedLogin(subject, user)
      ensures log == old(log) + LoginLog(subject)
    {
      var credentialStorage := subject.credentialStorage;
      if credentialStorage != null {
        credentialStorage.SetData(user);
        credentialStorage.SetId(Get(user, UserIdField));
        var authStorage := subject.authStorage;
        if authStorage != null {
          authStorage.SetUser(credentialStorage);
          var raised := authStorage.ProcessLogin();
          if raised {
            log := log + [LoginError];
            return;
          }
          eventManager.Dispatch(LoginSuccessEvent, Credential(credentialStorage));
        }
      } else {
        var authStorage := subject.authStorage;
        if authStorage != null {
          authStorage.SetUserData(UserData(user));
          var raised := authStorage.ProcessLogin();
          if raised {
            log := log + [LoginError];
            return;
          }
          eventManager.Dispatch(LoginSuccessEvent, RawUser(user));
        }
      }
    }
  }
}
