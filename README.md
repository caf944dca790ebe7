# FreeAdmin login bypass plugin, modelled in Dafny

FreeAdmin adds a "before" plugin to the Magento admin `Auth::login` call
(`SimpleLoginPlugin::beforeLogin`). It decides first whether authentication
is switched off. That happens only when the application is not in production
mode and the deployment configuration value `backend/auth` is identically
`false`. If a read fails, authentication stays on. When it is off, the plugin
picks an existing admin account: the first one whose email equals the supplied
username, else the first one whose username equals it, else the first account
in the store. It forces a session for that account through the credential
storage, or through the auth storage's user data when there is no credential
storage. It then dispatches `backend_auth_user_login_success` and hands the real
login the empty credentials `('', '')`. Otherwise the credentials pass through
unchanged.

The project has two modules:

- `Framework` (`framework.dfy`) holds the host framework as the plugin sees it:
  - PHP scalars and their truthiness;
  - `Reading<T>` for a collaborator call that returns a value or throws;
  - admin-user rows as maps from column name to value (what `getData()` returns);
  - `getFirstItem()` on a filtered collection, as the first matching row or an empty item without an id;
  - the credential storage, the auth session storage and the event manager, as classes whose methods change their fields.
- `FreeAdmin` (`simple_login_plugin.dfy`) holds the plugin itself:
  - the bypass decision and the account selection as functions, with lemmas about them;
  - the selection as the plugin performs it, one reassignment per tier;
  - the plugin class with `BeforeLogin`, `BypassAuthentication` and `SetCredentialStorageAndLogin`;
  - the plugin's error-log lines, kept as a sequence of abstract entries.

The application mode, the deployment configuration and the admin-user
collection are parameters of the plugin object. Each can be a value or a
failure. The only other failure modelled is `processLogin()` throwing, which is
a constant of the auth storage.

The two login branches do not leave the same state. Without a credential
storage, the plugin calls `setUserData` with a six-key array and never calls
`setUser` (SimpleLoginPlugin.php:210). The model records exactly that:
`AuthStorage.userData` is set and `AuthStorage.user` is unchanged.

## Model

| member | source | states |
|---|---|---|
| Framework.FirstIndex | Plugin/Backend/Model/Auth/SimpleLoginPlugin.php:136-150 | the position a collection lookup returns: the row it points at passes the filter, and no earlier row does |
| Framework.FirstItem | Plugin/Backend/Model/Auth/SimpleLoginPlugin.php:136-150 | `getFirstItem()`: the result is the first stored row that passes the filter, or the empty item when no row passes; a result with an id is a stored row that passes |
| FreeAdmin.IsAuthModuleDisabled | Plugin/Backend/Model/Auth/SimpleLoginPlugin.php:105-118 | production mode never bypasses; a failed mode or config read means no bypass; outside production, bypass holds iff `backend/auth` is exactly `false` |
| FreeAdmin.OnlyStrictFalseDisables | Plugin/Backend/Model/Auth/SimpleLoginPlugin.php:113 | any other value, including null (a missing key), 0, "" and "0", leaves authentication on |
| FreeAdmin.SelectedAccount | Plugin/Backend/Model/Auth/SimpleLoginPlugin.php:135-153 | a selected account is a stored row with an id; it matches the username by email or by username, or it is the store's first row; a store whose first row has an id always yields an account |
| FreeAdmin.EmailMatchWins | Plugin/Backend/Model/Auth/SimpleLoginPlugin.php:135-139 | for a non-empty username, the first account whose email equals it is selected, ahead of any username match and the fallback |
| FreeAdmin.UsernameMatchBeatsFallback | Plugin/Backend/Model/Auth/SimpleLoginPlugin.php:140-145 | when the email lookup yields no item with an id, the first account whose username equals the username is selected, ahead of the fallback |
| FreeAdmin.UnmatchedUsernameFallsBack | Plugin/Backend/Model/Auth/SimpleLoginPlugin.php:148-151 | a username matching neither field selects the store's first account (none if the store is empty or that row has no id) |
| FreeAdmin.EmptyUsernameTakesFirstAccount | Plugin/Backend/Model/Auth/SimpleLoginPlugin.php:135-151 | an empty username in PHP's sense ("" or "0") skips both lookups and selects the first account |
| FreeAdmin.NoAccountWithoutIds | Plugin/Backend/Model/Auth/SimpleLoginPlugin.php:149-158 | an empty store, or one where no row has an id, selects nothing, so no login is attempted |
| FreeAdmin.SelectAdminUser | Plugin/Backend/Model/Auth/SimpleLoginPlugin.php:129-152 | the step-by-step selection fails exactly when the collection read throws; otherwise it returns the account `SelectedAccount` names, so it is deterministic for a fixed store and username |
| FreeAdmin.UserData | Plugin/Backend/Model/Auth/SimpleLoginPlugin.php:199-207 | the user-data array has exactly the keys user_id, username, email, firstname, lastname and is_active, each copied from the user |
| FreeAdmin.CredentialData | Plugin/Backend/Model/Auth/SimpleLoginPlugin.php:179-181 | after `setData(getData())` and `setId(getId())`, the credential storage holds the user's data, with the same id |
| FreeAdmin.BranchesAgreeOnIdentity | Plugin/Backend/Model/Auth/SimpleLoginPlugin.php:178-207 | for a user with an id, both branches record the same id, username, email, names and active flag |
| FreeAdmin.SimpleLoginPlugin.constructor | Plugin/Backend/Model/Auth/SimpleLoginPlugin.php:58-70 | the plugin keeps its collaborators and starts with an empty log |
| FreeAdmin.SimpleLoginPlugin.BeforeLogin | Plugin/Backend/Model/Auth/SimpleLoginPlugin.php:80-98 | a bypass returns ('', '') whatever selection and login did, logs the attempt and leaves the session as `SessionAfterBypass` says; otherwise the credentials pass through and nothing changes; production never changes anything |
| FreeAdmin.SimpleLoginPlugin.BypassAuthentication | Plugin/Backend/Model/Auth/SimpleLoginPlugin.php:127-163 | a failed lookup logs an error, no account logs "no admin user", and a found account gets a forced login and an entry naming its email; the session changes only through that login |
| FreeAdmin.SimpleLoginPlugin.SetCredentialStorageAndLogin | Plugin/Backend/Model/Auth/SimpleLoginPlugin.php:172-223 | states the whole new state. With a credential storage: it holds the user's data and becomes the auth storage's user. Without one: the auth storage gets the six-key user data. Then `processLogin` runs and one success event is dispatched, carrying the credential storage or the raw user. With no auth storage there is no login and no event. A throwing `processLogin` logs an error and dispatches nothing |

## Left out

- `ModuleList` is injected and stored but never used, so the plugin object does not hold it.
- The text of `error_log` messages is not modelled. Each message is an abstract `LogEntry` kind, with the username or email it names.
- Exceptions are modelled only where they change the outcome: the mode read, the configuration read, the user collection and `processLogin`. A throw from `getCredentialStorage`, `getAuthStorage`, the setters, `getEmail` or an event observer is not modelled.
- The three collection reads are one `Reading`: a throw at any of them ends the selection the same way, since the reads change nothing.
- Framework.FirstItem: collection filtering is exact string equality on the column; a database collation that ignores case or trailing spaces is not modelled. The collection's order is the order of the sequence.
- The deployment configuration is a map from flattened paths to scalars. Nested arrays, floats and reloading of the configuration file are not modelled; none of them can equal `false`.
- Username and password are strings. PHP's untyped arguments (null, arrays) are not modelled.
- What `processLogin()` does inside the session (ids, ACL, expiry, persistence) belongs to the host framework. The model records only that it ran, or that it threw.
