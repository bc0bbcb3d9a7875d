/** Entities shared by every component: users, roles, permissions, tokens and replies. */
module Domain {

  datatype Option<+T> = None | Some(value: T)

  type Id = nat
  type Tenant = nat
  type Token = string
  /** Milliseconds, the resolution of a Redis TTL; every store reads the same clock. */
  type Time = int

  /** What uuid.Parse yields on malformed text; uuid.New never yields it. */
  const NIL_ID: Id := 0

  datatype Role = Admin | Member | Unknown(name: string)

  datatype Permission = ReadProfile | UpdateProfile | DeleteUser | ManageSystem

  function RolePermissions(role: Role): seq<Permission> {
    match role
    case Admin => [ReadProfile, UpdateProfile, DeleteUser, ManageSystem]
    case Member => [ReadProfile, UpdateProfile]
    case Unknown(_) => []
  }

  predicate HasPermission(role: Role, required: Permission) {
    required in RolePermissions(role)
  }

  lemma Permissions(role: Role, required: Permission)
    ensures HasPermission(role, required) <==>
            role == Admin || (role == Member && (required == ReadProfile || required == UpdateProfile))
  {
  }

  /** bcrypt taken as ideal: a hash is matched by exactly the password it was made from,
      and the hash of 16 discarded random bytes by no password at all. */
  datatype Hash = Bcrypt(plain: string) | OfRandomBytes {
    predicate Matches(password: string) {
      Bcrypt? && plain == password
    }
  }

  datatype User = User(
    id: Id, tenant: Tenant, email: string, password: Hash, role: Role, active: bool,
    mfaEnabled: bool, mfaSecret: string, emailVerified: bool,
    provider: string, subject: string, externalId: string,
    createdAt: Time, updatedAt: Time)

  /** The columns that no UPDATE statement of the service writes, and the role. */
  ghost predicate SameIdentity(u: User, v: User) {
    u.id == v.id && u.tenant == v.tenant && u.provider == v.provider && u.subject == v.subject &&
    u.createdAt == v.createdAt && u.role == v.role
  }

  /** How one storage command ends: applied and acknowledged, applied but reported as an error
      (the reply is lost), or not applied and reported as an error. */
  datatype Outcome = Acked | Lost | Refused

  /** The SCIM view of a user, without its constant strings. */
  datatype ScimUser = ScimUser(
    id: Id, externalId: string, userName: string, active: bool, email: string, created: Time, lastModified: Time)

  function ToScim(u: User): ScimUser {
    ScimUser(u.id, u.externalId, u.email, u.active, u.email, u.createdAt, u.updatedAt)
  }

  datatype Error =
    | Validation | Unauthorized | InvalidToken | InvalidMfaCode | NotFound | Conflict
    | InvalidState | UnsupportedProvider | OAuthExchange | RateLimited | Internal

  /** A session carries the claims of its access token and the time the token is good for. */
  datatype Reply =
    | Session(id: Id, email: string, role: Role, expiresIn: Time, refresh: Token)
    | MfaRequired(challenge: Token)
    | StateIssued(url: string, state: Token)
    | Enrolled(secret: string, uri: string)
    | Resource(user: ScimUser)
    | Accepted
    | Failed(error: Error)
}
