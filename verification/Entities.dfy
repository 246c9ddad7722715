/** The rows of the identity and OAuth tables. Instants and durations are
    nanosecond counts. */
module Entities {
  import opened Wrappers

  const SECOND: int := 1_000_000_000

  /** A limit that lets at least one through. */
  function AtLeastOne(n: int): nat {
    if n < 1 then 1 else n
  }

  /** `time.Time.Unix`: whole seconds, rounded towards minus infinity. */
  function Unix(t: int): int {
    t / SECOND
  }

  /** The at-rest form of a high-entropy secret, as an ideal hash: equal only for equal
      secrets, and never equal to the empty column value `NoDigest`. */
  datatype Digest = NoDigest | Sha256(secret: string)

  datatype User = User(
    id: string,
    userName: string,
    email: string,
    emailConfirmed: bool,
    passwordHash: string,
    securityStamp: string,
    concurrencyStamp: string,
    phoneNumber: string,
    phoneNumberConfirmed: bool,
    twoFactorEnabled: bool,
    lockoutEnd: Option<int>,
    lockoutEnabled: bool,
    accessFailedCount: int,
    isAnonymous: bool,
    createdAt: int)
  {
    /** `IsLockedOut`, with the clock reading passed in. */
    predicate IsLockedOut(now: int) {
      lockoutEnabled && lockoutEnd.Some? && lockoutEnd.value > now
    }
  }

  datatype Role = Role(id: string, name: string, normalizedName: string, concurrencyStamp: string)

  datatype Claim = Claim(claimType: string, claimValue: string)

  datatype LoginInfo = LoginInfo(loginProvider: string, providerKey: string, displayName: string)

  datatype APIKey = APIKey(id: string, userID: string, keyHash: Digest, expiresAt: Option<int>, revokedAt: Option<int>)

  datatype RefreshToken = RefreshToken(
    sessionID: string,
    userID: string,
    tokenHash: Digest,
    expiresAt: int,
    createdAt: int,
    lastUsedAt: Option<int>)

  datatype Client = Client(
    clientID: string,
    secretHash: Digest,
    redirectURIs: seq<string>,
    authMethod: string,
    grantTypes: seq<string>,
    createdAt: int,
    lastUsedAt: Option<int>)

  datatype Code = Code(
    codeHash: Digest,
    clientID: string,
    userID: string,
    redirectURI: string,
    scopes: string,
    resource: string,
    challenge: string,
    expiresAt: int,
    usedAt: Option<int>,
    grantID: string)

  datatype Consent = Consent(userID: string, clientID: string, scopes: string, createdAt: int, updatedAt: int)

  datatype Grant = Grant(
    id: string,
    userID: string,
    clientID: string,
    scopes: string,
    resource: string,
    tokenHash: Digest,
    prevTokenHash: Digest,
    securityStamp: string,
    expiresAt: int,
    createdAt: int,
    lastUsedAt: Option<int>)

  datatype StoreError = NotFound | ConcurrencyFailure | LoginAlreadyUsed
}
