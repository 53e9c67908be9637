/** The HTTP service over the users table: bearer-token authentication,
    record formatting, the idempotent bootstrap, and the self-service
    profile read and update. The table is a map from uid to record; token
    verification is a function that may fail; every store call may throw,
    which a `StoreFault` parameter says. */
module UserService {
  import opened Outcomes
  import opened Text

  // ------------------------------------------------------------ data model

  /** The verified caller, `req.user`: the token's uid and (maybe) email. */
  datatype Identity = Identity(uid: string, email: Option<string>)

  /** The stored fields of a user row; the store leaves out empty ones. */
  datatype Fields = Fields(
    uid: Option<string>,
    email: Option<string>,
    displayName: Option<string>,
    phone: Option<string>,
    role: Option<string>,
    updatedAt: Option<string>)

  /** A row of the users table: the store's record id and its fields. */
  datatype Record = Record(id: string, fields: Fields)

  /** The users table, keyed by uid. */
  type Table = map<string, Record>

  /** Every row is filed under the uid it carries. */
  ghost predicate WellKeyed(t: Table) {
    forall u :: u in t ==> t[u].fields.uid == Some(u)
  }

  /** A user as the service sends it to clients. */
  datatype UserView = UserView(
    id: string,
    uid: Option<string>,
    email: Option<string>,
    displayName: string,
    phone: string,
    role: string,
    updatedAt: Option<string>)

  /** A JSON response body: a user (with the optional "message" key, here
      `info`) or an error. */
  datatype Body =
    | UserBody(info: Option<string>, user: UserView)
    | ErrorBody(error: string, message: string, details: Option<string>)
  {
    /** The body's "message" key, if it has one. */
    function MessageKey(): Option<string> {
      if UserBody? then info else Some(message)
    }
  }

  datatype Response = Response(status: nat, body: Body)

  /** The request body of `PUT /api/profile`; `None` is `undefined`. */
  datatype ProfileBody = ProfileBody(
    displayName: Option<string>,
    phone: Option<string>,
    role: Option<string>)

  /** Which store call throws, if any, and the error's message. */
  datatype StoreFault = Healthy | LookupFails(reason: string) | WriteFails(reason: string)

  /** A route's response together with the table as it stands afterwards. */
  datatype Served = Served(response: Response, table: Table)

  // ------------------------------------------------------- authentication

  const BearerPrefix := "Bearer "
  const NoTokenMessage := "No valid authorization token provided"
  const BadTokenMessage := "Invalid or expired token"
  /** What `email.split` throws when the token carries no email. */
  const UndefinedSplitMessage := "Cannot read properties of undefined (reading 'split')"

  function Unauthorized(message: string): Response {
    Response(401, ErrorBody("Unauthorized", message, None))
  }

  /** The token of an `Authorization` header: `header.split('Bearer ')[1]`
      when the header is present and starts with "Bearer ". */
  function ExtractToken(header: Option<string>): (r: Option<string>)
    ensures r.Some? <==> header.Some? && StartsWith(header.value, BearerPrefix)
    ensures r.Some? ==> r.value == BeforeFirst(header.value[|BearerPrefix|..], BearerPrefix)
  {
    if header.Some? && StartsWith(header.value, BearerPrefix) then
      SplitAfterLeadingSeparator(header.value, BearerPrefix);
      Some(Split(header.value, BearerPrefix)[1])
    else None
  }

  /** A header built as "Bearer " + t yields exactly t, provided t does not
      itself contain "Bearer ". */
  lemma ExtractTokenOfBearer(t: string)
    requires !Contains(t, BearerPrefix)
    ensures ExtractToken(Some(BearerPrefix + t)) == Some(t)
  {
    var h := BearerPrefix + t;
    assert h[..|BearerPrefix|] == BearerPrefix;
    assert h[|BearerPrefix|..] == t;
  }

  datatype AuthResult = Authenticated(user: Identity) | Rejected(response: Response)

  /** The `authenticateUser` middleware. */
  function Authenticate(header: Option<string>, verify: string -> Option<Identity>): (r: AuthResult)
    ensures ExtractToken(header).None? ==> r == Rejected(Unauthorized(NoTokenMessage))
    ensures ExtractToken(header).Some? && verify(ExtractToken(header).value).None? ==>
      r == Rejected(Unauthorized(BadTokenMessage))
    ensures r.Authenticated? <==>
      ExtractToken(header).Some? && verify(ExtractToken(header).value).Some?
    ensures r.Authenticated? ==> r.user == verify(ExtractToken(header).value).value
    ensures r.Rejected? ==> r.response.status == 401
  {
    match ExtractToken(header)
    case None => Rejected(Unauthorized(NoTokenMessage))
    case Some(token) =>
      match verify(token)
      case None => Rejected(Unauthorized(BadTokenMessage))
      case Some(decoded) => Authenticated(Identity(decoded.uid, decoded.email))
  }

  /** Without a bearer header the verifier is never consulted: any two
      verifiers give the same rejection. */
  lemma {:induction false} NoBearerIgnoresVerifier(
    header: Option<string>, v1: string -> Option<Identity>, v2: string -> Option<Identity>)
    requires header.None? || !StartsWith(header.value, BearerPrefix)
    ensures Authenticate(header, v1) == Authenticate(header, v2)
    ensures Authenticate(header, v1).Rejected?
  {
    assert ExtractToken(header).None?;
  }

  // ------------------------------------------------------------ formatting

  /** `formatUserRecord`: copies id, uid, email and updatedAt; an absent
      display name, phone or role becomes "". */
  function Format(r: Record): (v: UserView)
    ensures v.id == r.id && v.uid == r.fields.uid && v.email == r.fields.email
    ensures v.updatedAt == r.fields.updatedAt
    ensures v.displayName == r.fields.displayName.GetOr("")
    ensures v.phone == r.fields.phone.GetOr("")
    ensures v.role == r.fields.role.GetOr("")
  {
    UserView(r.id, r.fields.uid, r.fields.email,
             OptOrElse(r.fields.displayName, ""),
             OptOrElse(r.fields.phone, ""),
             OptOrElse(r.fields.role, ""),
             r.fields.updatedAt)
  }

  // -------------------------------------------------------------- bootstrap

  const BootstrapFailure := "Failed to create or retrieve user record"

  function ServerError(message: string, details: string): Response {
    Response(500, ErrorBody("Internal Server Error", message, Some(details)))
  }

  /** The default display name: the part of the email before the first '@',
      with its first character upper-cased and the rest as it was. */
  function DefaultDisplayName(email: string): (name: string)
    ensures var local := BeforeFirst(email, "@");
      && |name| == |local|
      && (local != "" ==> name[0] == AsciiUpper(local[0]) && name[1..] == local[1..])
      && local <= email && !Contains(local, "@")
  {
    CapitalizeFirst(Split(email, "@")[0])
  }

  /** Only the first character changes: "john.doe@x.com" gives "John.doe". */
  lemma DefaultDisplayNameExample()
    ensures DefaultDisplayName("john.doe@x.com") == "John.doe"
  {
    var e := "john.doe@x.com";
    assert OccursAt(e, "@", 8);
    forall j: nat | j < 8 ensures !OccursAt(e, "@", j) {
      assert e[j..j + 1] == [e[j]];
    }
    assert IndexOf(e, "@") == Some(8);
    assert BeforeFirst(e, "@") == "john.doe";
  }

  /** The row created for a first-time caller. */
  function NewUserRecord(who: Identity, email: string, newId: string, stamp: string): Record {
    Record(newId, Fields(Some(who.uid), Some(email), Some(DefaultDisplayName(email)),
                         Some(""), Some("Parent"), Some(stamp)))
  }

  /** `POST /api/bootstrap` for an authenticated caller. `newId` and `stamp`
      are the record id and modification time the store assigns. */
  function Bootstrap(t: Table, who: Identity, newId: string, stamp: string, fault: StoreFault): (s: Served)
    ensures fault.LookupFails? ==> s == Served(ServerError(BootstrapFailure, fault.reason), t)
    ensures !fault.LookupFails? && who.uid in t ==>
      s == Served(Response(200, UserBody(Some("User already exists"), Format(t[who.uid]))), t)
    ensures !fault.LookupFails? && who.uid !in t && who.email.None? ==>
      s == Served(ServerError(BootstrapFailure, UndefinedSplitMessage), t)
    ensures !fault.LookupFails? && who.uid !in t && who.email.Some? && fault.WriteFails? ==>
      s == Served(ServerError(BootstrapFailure, fault.reason), t)
    ensures s.response.status == 201 <==>
      !fault.LookupFails? && who.uid !in t && who.email.Some? && fault == Healthy
    ensures s.response.status == 201 ==> who.uid in s.table
    ensures s.response.status == 201 && who.uid in s.table ==>
      var created := s.table[who.uid];
      && s.table == t[who.uid := created]
      && created.fields.phone == Some("") && created.fields.role == Some("Parent")
      && created.fields.uid == Some(who.uid) && created.fields.email == who.email
      && created.id == newId && created.fields.updatedAt == Some(stamp)
      && created.fields.displayName == Some(DefaultDisplayName(who.email.value))
      && s.response.body == UserBody(Some("User created successfully"), Format(created))
    ensures s.response.status != 201 ==> s.table == t
    ensures s.response.status in {200, 201, 500}
  {
    if fault.LookupFails? then Served(ServerError(BootstrapFailure, fault.reason), t)
    else if who.uid in t then
      Served(Response(200, UserBody(Some("User already exists"), Format(t[who.uid]))), t)
    else if who.email.None? then Served(ServerError(BootstrapFailure, UndefinedSplitMessage), t)
    else if fault.WriteFails? then Served(ServerError(BootstrapFailure, fault.reason), t)
    else
      var created := NewUserRecord(who, who.email.value, newId, stamp);
      Served(Response(201, UserBody(Some("User created successfully"), Format(created))),
             t[who.uid := created])
  }

  /** Bootstrap is idempotent: once a bootstrap has succeeded, a second one
      (whose lookup does not throw) returns 200 with the same user and
      creates nothing, whatever record id and time the store would offer. */
  lemma BootstrapTwice(t: Table, who: Identity, id1: string, stamp1: string, fault1: StoreFault,
                       id2: string, stamp2: string, fault2: StoreFault)
    requires Bootstrap(t, who, id1, stamp1, fault1).response.status in {200, 201}
    requires !fault2.LookupFails?
    ensures var first := Bootstrap(t, who, id1, stamp1, fault1);
      var second := Bootstrap(first.table, who, id2, stamp2, fault2);
      && second.response.status == 200
      && second.table == first.table
      && second.response.body.user == first.response.body.user
  {
  }

  /** Bootstrap keeps every row filed under its own uid, and never alters
      or drops a row that was there. */
  lemma BootstrapKeepsRows(t: Table, who: Identity, newId: string, stamp: string, fault: StoreFault)
    requires WellKeyed(t)
    ensures var s := Bootstrap(t, who, newId, stamp, fault);
      WellKeyed(s.table) && t.Keys <= s.table.Keys &&
      forall u :: u in t ==> s.table[u] == t[u]
  {
  }

  /** The bootstrap route: authentication, then `Bootstrap`. */
  function BootstrapRoute(t: Table, header: Option<string>, verify: string -> Option<Identity>,
                          newId: string, stamp: string, fault: StoreFault): (s: Served)
    ensures Authenticate(header, verify).Rejected? ==>
      s == Served(Authenticate(header, verify).response, t)
    ensures Authenticate(header, verify).Authenticated? ==>
      s == Bootstrap(t, Authenticate(header, verify).user, newId, stamp, fault)
  {
    match Authenticate(header, verify)
    case Rejected(r) => Served(r, t)
    case Authenticated(who) => Bootstrap(t, who, newId, stamp, fault)
  }

  // ---------------------------------------------------------------- profile

  const NotFound := Response(404, ErrorBody("Not Found", "User profile not found", None))

  /** `GET /api/profile` for an authenticated caller. It only reads. */
  function GetProfile(t: Table, uid: string, fault: StoreFault): (r: Response)
    ensures fault.LookupFails? ==>
      r == ServerError("Failed to retrieve user profile", fault.reason)
    ensures !fault.LookupFails? && uid !in t ==> r == NotFound
    ensures !fault.LookupFails? && uid in t ==> r == Response(200, UserBody(None, Format(t[uid])))
  {
    if fault.LookupFails? then ServerError("Failed to retrieve user profile", fault.reason)
    else if uid !in t then NotFound
    else Response(200, UserBody(None, Format(t[uid])))
  }

  function GetProfileRoute(t: Table, header: Option<string>, verify: string -> Option<Identity>,
                           fault: StoreFault): (r: Response)
    ensures Authenticate(header, verify).Rejected? ==> r == Authenticate(header, verify).response
    ensures Authenticate(header, verify).Authenticated? ==>
      r == GetProfile(t, Authenticate(header, verify).user.uid, fault)
  {
    match Authenticate(header, verify)
    case Rejected(resp) => resp
    case Authenticated(who) => GetProfile(t, who.uid, fault)
  }

  /** The roles the self-service update accepts; "IT" is not among them. */
  const ValidRoles: seq<string> := ["Parent", "Educator", "Admin"]

  function InvalidRoleMessage(): string {
    "Invalid role. Must be one of: " + Join(ValidRoles, ", ")
  }

  lemma InvalidRoleMessageText()
    ensures InvalidRoleMessage() == "Invalid role. Must be one of: Parent, Educator, Admin"
  {
    assert ValidRoles[1..] == ["Educator", "Admin"];
    assert ValidRoles[1..][1..] == ["Admin"];
  }

  const UpdateFailure := "Failed to update user profile"

  /** The store's `update`: each field the patch gives replaces the stored
      one; the modification time becomes `stamp`. */
  function ApplyPatch(f: Fields, patch: ProfileBody, stamp: string): (g: Fields)
    ensures g.uid == f.uid && g.email == f.email && g.updatedAt == Some(stamp)
    ensures g.displayName == (if patch.displayName.Some? then patch.displayName else f.displayName)
    ensures g.phone == (if patch.phone.Some? then patch.phone else f.phone)
    ensures g.role == (if patch.role.Some? then patch.role else f.role)
  {
    f.(displayName := if patch.displayName.Some? then patch.displayName else f.displayName,
       phone := if patch.phone.Some? then patch.phone else f.phone,
       role := if patch.role.Some? then patch.role else f.role,
       updatedAt := Some(stamp))
  }

  /** `PUT /api/profile` for an authenticated caller. */
  function PutProfile(t: Table, uid: string, body: ProfileBody, stamp: string, fault: StoreFault): (s: Served)
    ensures fault.LookupFails? ==> s == Served(ServerError(UpdateFailure, fault.reason), t)
    ensures !fault.LookupFails? && uid !in t ==> s == Served(NotFound, t)
    ensures !fault.LookupFails? && uid in t && body.role.Some? && body.role.value !in ValidRoles ==>
      s == Served(Response(400, ErrorBody("Bad Request", InvalidRoleMessage(), None)), t)
    ensures fault.WriteFails? && uid in t && (body.role.Some? ==> body.role.value in ValidRoles) ==>
      s == Served(ServerError(UpdateFailure, fault.reason), t)
    ensures s.response.status == 200 <==>
      fault == Healthy && uid in t && (body.role.Some? ==> body.role.value in ValidRoles)
    ensures s.response.status == 200 ==>
      var updated := Record(t[uid].id, ApplyPatch(t[uid].fields, body, stamp));
      && s.table == t[uid := updated]
      && s.response.body == UserBody(Some("Profile updated successfully"), Format(updated))
    ensures s.response.status != 200 ==> s.table == t
  {
    if fault.LookupFails? then Served(ServerError(UpdateFailure, fault.reason), t)
    else if uid !in t then Served(NotFound, t)
    else if body.role.Some? && body.role.value !in ValidRoles then
      Served(Response(400, ErrorBody("Bad Request", InvalidRoleMessage(), None)), t)
    else if fault.WriteFails? then Served(ServerError(UpdateFailure, fault.reason), t)
    else
      var updated := Record(t[uid].id, ApplyPatch(t[uid].fields, body, stamp));
      Served(Response(200, UserBody(Some("Profile updated successfully"), Format(updated))),
             t[uid := updated])
  }

  function PutProfileRoute(t: Table, header: Option<string>, verify: string -> Option<Identity>,
                           body: ProfileBody, stamp: string, fault: StoreFault): (s: Served)
    ensures Authenticate(header, verify).Rejected? ==>
      s == Served(Authenticate(header, verify).response, t)
    ensures Authenticate(header, verify).Authenticated? ==>
      s == PutProfile(t, Authenticate(header, verify).user.uid, body, stamp, fault)
  {
    match Authenticate(header, verify)
    case Rejected(r) => Served(r, t)
    case Authenticated(who) => PutProfile(t, who.uid, body, stamp, fault)
  }

  /** The self-service update can never make a caller "IT" who was not:
      whatever the body, the stored role afterwards is the old one or one of
      Parent, Educator, Admin. */
  lemma PutProfileNeverGrantsIT(t: Table, uid: string, body: ProfileBody, stamp: string, fault: StoreFault)
    requires uid in t
    ensures var s := PutProfile(t, uid, body, stamp, fault);
      uid in s.table &&
      (s.table[uid].fields.role == t[uid].fields.role ||
       (s.table[uid].fields.role.Some? && s.table[uid].fields.role.value in ValidRoles))
    ensures PutProfile(t, uid, body, stamp, fault).table[uid].fields.role == Some("IT") ==>
      t[uid].fields.role == Some("IT")
  {
  }

  /** A body without a role leaves the stored role as it was, and a body
      that gives no field at all changes no field but the modification time. */
  lemma PutProfileWithoutRole(t: Table, uid: string, body: ProfileBody, stamp: string, fault: StoreFault)
    requires uid in t && body.role.None?
    ensures PutProfile(t, uid, body, stamp, fault).table[uid].fields.role == t[uid].fields.role
    ensures body.displayName.None? && body.phone.None? ==>
      PutProfile(t, uid, body, stamp, fault).table[uid].fields ==
        t[uid].fields.(updatedAt := PutProfile(t, uid, body, stamp, fault).table[uid].fields.updatedAt)
  {
  }

  /** The update keeps every row filed under its own uid and touches no other row. */
  lemma PutProfileKeepsRows(t: Table, uid: string, body: ProfileBody, stamp: string, fault: StoreFault)
    requires WellKeyed(t)
    ensures var s := PutProfile(t, uid, body, stamp, fault);
      WellKeyed(s.table) && s.table.Keys == t.Keys &&
      forall u :: u in t && u != uid ==> s.table[u] == t[u]
  {
  }

  // ------------------------------------------------------------ the table

  /** The users table as the running service holds it. */
  class UsersTable {
    var rows: Table

    ghost predicate Valid()
      reads this
    {
      WellKeyed(rows)
    }

    constructor ()
      ensures Valid() && rows == map[]
    {
      rows := map[];
    }

    /** `findUserByUID`: the row filed under `uid`, if any. */
    method Find(uid: string) returns (r: Option<Record>)
      requires Valid()
      ensures r.Some? <==> uid in rows
      ensures r.Some? ==> r.value == rows[uid] && r.value.fields.uid == Some(uid)
    {
      if uid in rows { r := Some(rows[uid]); } else { r := None; }
    }

    method PostBootstrap(header: Option<string>, verify: string -> Option<Identity>,
                         newId: string, stamp: string, fault: StoreFault) returns (resp: Response)
      requires Valid()
      modifies this
      ensures Valid()
      ensures Served(resp, rows) == BootstrapRoute(old(rows), header, verify, newId, stamp, fault)
    {
      var auth := Authenticate(header, verify);
      if auth.Rejected? {
        return auth.response;
      }
      var who := auth.user;
      if fault.LookupFails? {
        return ServerError(BootstrapFailure, fault.reason);
      }
      var existing := Find(who.uid);
      if existing.Some? {
        return Response(200, UserBody(Some("User already exists"), Format(existing.value)));
      }
      if who.email.None? {
        return ServerError(BootstrapFailure, UndefinedSplitMessage);
      }
      var name := DefaultDisplayName(who.email.value);
      if fault.WriteFails? {
        return ServerError(BootstrapFailure, fault.reason);
      }
      var created := Record(newId, Fields(Some(who.uid), who.email, Some(name), Some(""),
                                          Some("Parent"), Some(stamp)));
      rows := rows[who.uid := created];
      resp := Response(201, UserBody(Some("User created successfully"), Format(created)));
    }

    method GetProfile(header: Option<string>, verify: string -> Option<Identity>,
                      fault: StoreFault) returns (resp: Response)
      requires Valid()
      ensures resp == GetProfileRoute(rows, header, verify, fault)
      ensures resp.status in {200, 401, 404, 500}
    {
      var auth := Authenticate(header, verify);
      if auth.Rejected? {
        return auth.response;
      }
      if fault.LookupFails? {
        return ServerError("Failed to retrieve user profile", fault.reason);
      }
      var found := Find(auth.user.uid);
      if found.None? {
        return NotFound;
      }
      resp := Response(200, UserBody(None, Format(found.value)));
    }

    /** The update handler, which builds its patch field by field: only the
        fields the body gives go into it, and a role only once validated. */
    method PutProfile(header: Option<string>, verify: string -> Option<Identity>,
                      body: ProfileBody, stamp: string, fault: StoreFault) returns (resp: Response)
      requires Valid()
      modifies this
      ensures Valid()
      ensures Served(resp, rows) == PutProfileRoute(old(rows), header, verify, body, stamp, fault)
    {
      var auth := Authenticate(header, verify);
      if auth.Rejected? {
        return auth.response;
      }
      var uid := auth.user.uid;
      if fault.LookupFails? {
        return ServerError(UpdateFailure, fault.reason);
      }
      var found := Find(uid);
      if found.None? {
        return NotFound;
      }
      var patch := ProfileBody(None, None, None);
      if body.displayName.Some? {
        patch := patch.(displayName := body.displayName);
      }
      if body.phone.Some? {
        patch := patch.(phone := body.phone);
      }
      if body.role.Some? {
        if body.role.value !in ValidRoles {
          return Response(400, ErrorBody("Bad Request", InvalidRoleMessage(), None));
        }
        patch := patch.(role := body.role);
      }
      assert patch == body;
      if fault.WriteFails? {
        return ServerError(UpdateFailure, fault.reason);
      }
      var updated := Record(found.value.id, ApplyPatch(found.value.fields, patch, stamp));
      rows := rows[uid := updated];
      resp := Response(200, UserBody(Some("Profile updated successfully"), Format(updated)));
    }
  }
}
