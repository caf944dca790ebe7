/**
 The host framework's collaborators, reduced to what the admin login plugin
 sees of them: PHP scalar values and their truthiness, calls that may throw,
 admin-user rows and the first-item lookup on a filtered user collection, and
 the objects the plugin changes in place (the credential storage, the auth
 session storage and the event manager).
 */
module Framework {

  datatype Option<T> = None | Some(value: T)

  /** The outcome of a collaborator call that either returns a value or throws. */
  datatype Reading<T> = Value(value: T) | Raised

  /** A PHP scalar as it can appear in deployment configuration and user rows. */
  datatype PhpValue = Null | Bool(b: bool) | Int(i: int) | Str(s: string)

  /** PHP's conversion to bool: null, false, 0, "" and "0" are falsy. */
  predicate Truthy(v: PhpValue)
  {
    match v
    case Null => false
    case Bool(b) => b
    case Int(i) => i != 0
    case Str(s) => s != "" && s != "0"
  }

  /** A data object's fields (what getData() returns), keyed by column name. */
  type Row = map<string, PhpValue>

  /** getData($key): a key the object does not hold reads as null. */
  function Get(row: Row, key: string): PhpValue
  {
    if key in row then row[key] else Null
  }

  /** The id field of an admin user (its primary-key column). */
  const UserIdField := "user_id"

  /** The item getFirstItem() returns for an empty collection: a fresh object with no data. */
  const EmptyItem: Row := map[]

  /** `if ($item->getId())`: the item stands for a stored account. */
  predicate HasId(row: Row)
  {
    Truthy(Get(row, UserIdField))
  }

  /** A collection filter: the whole collection, or addFieldToFilter(field, value). */
  datatype Filter = All | FieldEquals(field: string, value: string)

  predicate Matches(row: Row, filter: Filter)
  {
    match filter
    case All => true
    case FieldEquals(field, value) => Get(row, field) == Str(value)
  }

  /** Position of the first row the filter keeps, or |rows| when it keeps none. */
  function FirstIndex(rows: seq<Row>, filter: Filter): (i: nat)
    ensures i <= |rows|
    ensures i < |rows| ==> Matches(rows[i], filter)
    ensures forall j :: 0 <= j < i ==> !Matches(rows[j], filter)
  {
    if rows == [] then 0
    else if Matches(rows[0], filter) then 0
    else 1 + FirstIndex(rows[1..], filter)
  }

  /** getFirstItem() on the filtered collection: the first kept row, or the empty item. */
  function FirstItem(rows: seq<Row>, filter: Filter): (r: Row)
    ensures r == EmptyItem || r in rows
    ensures HasId(r) ==> r in rows && Matches(r, filter)
    ensures (exists k :: 0 <= k < |rows| && Matches(rows[k], filter)) ==> r in rows && Matches(r, filter)
    ensures forall k ::
              (0 <= k < |rows| && Matches(rows[k], filter) &&
               (forall j :: 0 <= j < k ==> !Matches(rows[j], filter))) ==> r == rows[k]
    ensures (forall k :: 0 <= k < |rows| ==> !Matches(rows[k], filter)) ==> r == EmptyItem
  {
    var i := FirstIndex(rows, filter);
    if i < |rows| then rows[i] else EmptyItem
  }

  /** The user model that serves as the auth subject's credential storage. */
  class CredentialStorage {
    var data: Row

    constructor ()
      ensures data == map[]
    {
      data := map[];
    }

    /** setData(array): the object's data is replaced by the array. */
    method SetData(d: Row)
      modifies this
      ensures data == d
    {
      data := d;
    }

    /** setId($id): writes the id field of the user model. */
    method SetId(id: PhpValue)
      modifies this
      ensures data == old(data)[UserIdField := id]
    {
      data := data[UserIdField := id];
    }
  }

  /** The admin session storage that holds the logged-in principal. */
  class AuthStorage {
    var user: CredentialStorage?
    var userData: Option<Row>
    var loginProcessed: bool
    /** Whether processLogin() throws in this environment. */
    const loginRaises: bool

    constructor (loginRaises: bool)
      ensures user == null && userData == None && !loginProcessed
      ensures this.loginRaises == loginRaises
    {
      user := null;
      userData := None;
      loginProcessed := false;
      this.loginRaises := loginRaises;
    }

    /** setUser($user) */
    method SetUser(u: CredentialStorage)
      modifies this
      ensures user == u
      ensures userData == old(userData) && loginProcessed == old(loginProcessed)
    {
      user := u;
    }

    /** setUserData($array): a plain session value, not the session's user. */
    method SetUserData(m: Row)
      modifies this
      ensures userData == Some(m)
      ensures user == old(user) && loginProcessed == old(loginProcessed)
    {
      userData := Some(m);
    }

    /** processLogin(): marks the session as logged in, or throws (raised is true). */
    method ProcessLogin() returns (raised: bool)
      modifies this
      ensures raised == loginRaises
      ensures loginProcessed == (old(loginProcessed) || !raised)
      ensures user == old(user) && userData == old(userData)
    {
      raised := loginRaises;
      if !raised {
        loginProcessed := true;
      }
    }
  }

  /** The value carried under the 'user' key of a login event. */
  datatype Principal = Credential(storage: CredentialStorage) | RawUser(row: Row)

  datatype Event = Event(name: string, user: Principal)

  /** The framework's event manager, seen as the log of events it has dispatched. */
  class EventManager {
    var dispatched: seq<Event>

    constructor ()
      ensures dispatched == []
    {
      dispatched := [];
    }

    method Dispatch(name: string, user: Principal)
      modifies this
      ensures dispatched == old(dispatched) + [Event(name, user)]
    {
      dispatched := dispatched + [Event(name, user)];
    }
  }

  /** The backend Auth object the plugin intercepts; either storage may be absent. */
  class Auth {
    const credentialStorage: CredentialStorage?
    const authStorage: AuthStorage?

    constructor (credentialStorage: CredentialStorage?, authStorage: AuthStorage?)
      ensures this.credentialStorage == credentialStorage && this.authStorage == authStorage
    {
      this.credentialStorage := credentialStorage;
      this.authStorage := authStorage;
    }

    /** The storages present, i.e. everything a forced login may change on this subject. */
    ghost function Storages(): set<object>
    {
      (if credentialStorage != null then {credentialStorage} else {}) +
      (if authStorage != null then {authStorage} else {})
    }
  }
}
