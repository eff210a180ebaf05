/** The persisted entities. `DataFlow` and `User` are mutable objects that the
    services change through setters; the stores keep value snapshots of them
    (`FlowDoc`, `UserDoc`), as a document database does. `FlowError` and
    `Role` are plain records. */
module Entities {
  import opened Common

  /** A clock reading (LocalDateTime.now() or Instant.now()), rendered. */
  type Timestamp = string

  const Stopped := "STOPPED"
  const Running := "RUNNING"

  // ---------------------------------------------------------------------
  // org.bson.types.ObjectId, as far as the application uses it
  // ---------------------------------------------------------------------

  predicate IsHexDigit(c: char)
  {
    '0' <= c <= '9' || 'a' <= c <= 'f' || 'A' <= c <= 'F'
  }

  /** What `new ObjectId(String)` accepts: exactly 24 hexadecimal digits. */
  predicate IsObjectIdHex(s: string)
  {
    |s| == 24 && forall i :: 0 <= i < |s| ==> IsHexDigit(s[i])
  }

  /** A twelve-byte object id, kept as its lower-case hex rendering. */
  datatype ObjectId = ObjectId(hex: string)

  /** `new ObjectId(s)`: None where the constructor throws
      IllegalArgumentException. */
  function ParseObjectId(s: string): (r: Option<ObjectId>)
    ensures r.Some? <==> IsObjectIdHex(s)
    ensures r.Some? ==> IsObjectIdHex(r.value.hex)
  {
    if IsObjectIdHex(s) then Some(ObjectId(ToLower(s))) else None
  }

  /** ObjectId.toHexString. */
  function ToHexString(o: ObjectId): string
  {
    o.hex
  }

  /** The message of the IllegalArgumentException `new ObjectId(s)` throws. */
  function InvalidObjectIdMessage(s: string): string
  {
    "invalid hexadecimal representation of an ObjectId: [" + s + "]"
  }

  /** Rendering a parsed id and parsing it again gives the same id. */
  lemma ObjectIdRoundTrip(s: string)
    requires IsObjectIdHex(s)
    ensures ParseObjectId(ToHexString(ParseObjectId(s).value)) == ParseObjectId(s)
  {
    var lower := ToLower(s);
    assert ToLower(lower) == lower;
  }

  // ---------------------------------------------------------------------
  // DataFlow
  // ---------------------------------------------------------------------

  /** A stored flow. `code` is the Python source held in the `function`
      field. */
  datatype FlowDoc = FlowDoc(
    id: Option<string>,
    name: Option<string>,
    ownerEmail: Option<string>,
    userId: Option<ObjectId>,
    code: Option<string>,
    packages: Option<seq<string>>,
    status: Option<string>,
    createdAt: Option<Timestamp>,
    updatedAt: Option<Timestamp>)

  /** getUserIdAsString on a snapshot. */
  function UserIdAsString(d: FlowDoc): (r: Option<string>)
    ensures r.None? <==> d.userId.None?
  {
    if d.userId.Some? then Some(ToHexString(d.userId.value)) else None
  }

  class DataFlow {
    var id: Option<string>
    var name: Option<string>
    var ownerEmail: Option<string>
    var userId: Option<ObjectId>
    var code: Option<string>
    var packages: Option<seq<string>>
    var status: Option<string>
    var createdAt: Option<Timestamp>
    var updatedAt: Option<Timestamp>

    /** The object's current field values. */
    function Doc(): FlowDoc
      reads this
    {
      FlowDoc(id, name, ownerEmail, userId, code, packages, status, createdAt, updatedAt)
    }

    /** `new DataFlow()`: status STOPPED, both timestamps now, all else null. */
    constructor (now: Timestamp)
      ensures Doc() == FlowDoc(None, None, None, None, None, None, Some(Stopped), Some(now), Some(now))
    {
      id, name, ownerEmail, userId, code, packages := None, None, None, None, None, None;
      status := Some(Stopped);
      createdAt, updatedAt := Some(now), Some(now);
    }

    /** The object the store materialises from a stored document. */
    constructor FromDoc(d: FlowDoc)
      ensures Doc() == d
    {
      id, name, ownerEmail, userId, code := d.id, d.name, d.ownerEmail, d.userId, d.code;
      packages, status, createdAt, updatedAt := d.packages, d.status, d.createdAt, d.updatedAt;
    }

    method SetId(v: Option<string>)
      modifies this
      ensures Doc() == old(Doc()).(id := v)
    {
      id := v;
    }

    method SetName(v: Option<string>)
      modifies this
      ensures Doc() == old(Doc()).(name := v)
    {
      name := v;
    }

    method SetOwnerEmail(v: Option<string>)
      modifies this
      ensures Doc() == old(Doc()).(ownerEmail := v)
    {
      ownerEmail := v;
    }

    method SetStatus(v: Option<string>)
      modifies this
      ensures Doc() == old(Doc()).(status := v)
    {
      status := v;
    }

    method SetCreatedAt(v: Option<Timestamp>)
      modifies this
      ensures Doc() == old(Doc()).(createdAt := v)
    {
      createdAt := v;
    }

    method SetUpdatedAt(v: Option<Timestamp>)
      modifies this
      ensures Doc() == old(Doc()).(updatedAt := v)
    {
      updatedAt := v;
    }

    method SetUserId(v: Option<ObjectId>)
      modifies this
      ensures Doc() == old(Doc()).(userId := v)
    {
      userId := v;
    }

    method SetFunction(v: Option<string>)
      modifies this
      ensures Doc() == old(Doc()).(code := v)
    {
      code := v;
    }

    method SetPackages(v: Option<seq<string>>)
      modifies this
      ensures Doc() == old(Doc()).(packages := v)
    {
      packages := v;
    }

    /** A null or empty string leaves userId alone; anything else must be an
        ObjectId, or the ObjectId constructor throws and nothing changes. */
    method SetUserIdFromString(s: Option<string>) returns (thrown: Option<Exception>)
      modifies this
      ensures s.None? || s.value == "" ==> thrown.None? && Doc() == old(Doc())
      ensures s.Some? && s.value != "" && IsObjectIdHex(s.value) ==>
                thrown.None? && Doc() == old(Doc()).(userId := ParseObjectId(s.value))
      ensures s.Some? && s.value != "" && !IsObjectIdHex(s.value) ==>
                thrown == Some(IllegalArgument(Some(InvalidObjectIdMessage(s.value)))) && Doc() == old(Doc())
    {
      thrown := None;
      if s.Some? && s.value != "" {
        var parsed := ParseObjectId(s.value);
        if parsed.None? {
          return Some(IllegalArgument(Some(InvalidObjectIdMessage(s.value))));
        }
        userId := parsed;
      }
    }

    /** Null exactly when no user id is set. */
    function GetUserIdAsString(): (r: Option<string>)
      reads this
      ensures r.None? <==> userId.None?
      ensures r == UserIdAsString(Doc())
    {
      if userId.Some? then Some(ToHexString(userId.value)) else None
    }
  }

  // ---------------------------------------------------------------------
  // User
  // ---------------------------------------------------------------------

  /** A stored user; `apiKey` is the `API_KEY` field. */
  datatype UserDoc = UserDoc(
    id: Option<string>,
    email: Option<string>,
    password: Option<string>,
    roles: Option<set<string>>,
    apiKey: Option<string>)

  /** User.hasRole on a snapshot. */
  predicate DocHasRole(d: UserDoc, role: string)
  {
    d.roles.Some? && role in d.roles.value
  }

  class User {
    var id: Option<string>
    var email: Option<string>
    var password: Option<string>
    var roles: Option<set<string>>
    var apiKey: Option<string>

    function Doc(): UserDoc
      reads this
    {
      UserDoc(id, email, password, roles, apiKey)
    }

    /** `new User()`: every field null. */
    constructor ()
      ensures Doc() == UserDoc(None, None, None, None, None)
    {
      id, email, password, roles, apiKey := None, None, None, None, None;
    }

    /** `new User(email, password, roles)`: id and API key stay null. */
    constructor WithCredentials(email: Option<string>, password: Option<string>, roles: Option<set<string>>)
      ensures Doc() == UserDoc(None, email, password, roles, None)
    {
      this.id, this.apiKey := None, None;
      this.email, this.password, this.roles := email, password, roles;
    }

    /** The object the store materialises from a stored document. */
    constructor FromDoc(d: UserDoc)
      ensures Doc() == d
    {
      id, email, password, roles, apiKey := d.id, d.email, d.password, d.roles, d.apiKey;
    }

    method SetId(v: Option<string>)
      modifies this
      ensures Doc() == old(Doc()).(id := v)
    {
      id := v;
    }

    method SetEmail(v: Option<string>)
      modifies this
      ensures Doc() == old(Doc()).(email := v)
    {
      email := v;
    }

    method SetPassword(v: Option<string>)
      modifies this
      ensures Doc() == old(Doc()).(password := v)
    {
      password := v;
    }

    method SetRoles(v: Option<set<string>>)
      modifies this
      ensures Doc() == old(Doc()).(roles := v)
    {
      roles := v;
    }

    /** getApiKey afterwards returns exactly the value set. */
    method SetApiKey(v: Option<string>)
      modifies this
      ensures apiKey == v
      ensures Doc() == old(Doc()).(apiKey := v)
    {
      apiKey := v;
    }

    /** False without a role set; otherwise membership. */
    function HasRole(role: string): (b: bool)
      reads this
      ensures roles.None? ==> !b
      ensures b <==> DocHasRole(Doc(), role)
    {
      roles != None && role in roles.value
    }
  }

  // ---------------------------------------------------------------------
  // Plain records
  // ---------------------------------------------------------------------

  /** A runtime error the external system recorded for a flow. */
  datatype FlowError = FlowError(
    id: Option<string>,
    message: Option<string>,
    flowId: Option<string>,
    date: Option<Timestamp>)

  /** A named role and the fully qualified class names of the views it opens. */
  datatype Role = Role(
    id: Option<string>,
    name: Option<string>,
    allowedViews: Option<set<string>>)
}
