/** Identifiers, records and time constants shared by the state machines. Identifiers are opaque:
    an integer stands for a UUID, an address or a random token, and is only compared for equality.
    Every clock value is a whole number of seconds. */
module Common {

  type UserId = int
  type SessionId = int
  type Email = int

  datatype Option<+T> = None | Some(value: T)

  datatype Result<+T, +E> = Ok(value: T) | Err(error: E)

  /** The error classes the services throw. `Internal` stands for a rejected SQL statement
      (a unique or foreign-key constraint). */
  datatype Failure = Unauthorized | Forbidden | NotFound | BadRequest | Conflict | Unavailable | Internal

  const DAY := 24 * 60 * 60
  const WEEK := 7 * DAY

  /** An Argon2 hash: it verifies exactly the password it was made from. */
  datatype Hash = Hash(secret: string)

  predicate Verify(hash: Hash, secret: string) {
    hash.secret == secret
  }

  datatype User = User(
    id: UserId,
    email: Email,
    username: Option<string>,
    passwordHash: Option<Hash>,
    isEmailVerified: bool,
    avatarUrl: Option<string>,
    permissions: int,
    tierId: int)

  /** The elements of a set in the order some store returns them. */
  method Enumerate<T(==)>(s: set<T>) returns (order: seq<T>)
    ensures forall x :: x in order <==> x in s
    ensures forall i, j :: 0 <= i < j < |order| ==> order[i] != order[j]
  {
    order := [];
    var rest := s;
    while rest != {}
      invariant rest <= s
      invariant forall x :: x in order <==> x in s && x !in rest
      invariant forall i, j :: 0 <= i < j < |order| ==> order[i] != order[j]
      decreases |rest|
    {
      var x :| x in rest;
      order := order + [x];
      rest := rest - {x};
    }
  }

  /** Two finite sets of which one is contained in the other compare by cardinality. */
  lemma {:induction false} SubsetCard<T>(a: set<T>, b: set<T>)
    requires a <= b
    ensures |a| <= |b|
    decreases a
  {
    if a != {} {
      var x :| x in a;
      SubsetCard(a - {x}, b - {x});
    }
  }
}

/** The tier table. A tier's id is its position in the table, counted from one. */
module Tiers {
  datatype TierName = Free | Premium

  datatype Tier = Tier(name: TierName, maxSessions: nat)

  const DEFINITIONS := [Tier(Free, 1), Tier(Premium, 3)]

  const FREE_TIER_ID := 1
  const PREMIUM_TIER_ID := 2

  /** The session limit of a tier id: one session on the free tier, three on premium. An id the
      table does not have falls back to the free tier. */
  function MaxSessions(tierId: int): (limit: nat)
    ensures limit == if tierId == PREMIUM_TIER_ID then 3 else 1
    ensures DEFINITIONS[FREE_TIER_ID - 1].name.Free? && DEFINITIONS[PREMIUM_TIER_ID - 1].name.Premium?
  {
    if 1 <= tierId <= |DEFINITIONS| then DEFINITIONS[tierId - 1].maxSessions else DEFINITIONS[0].maxSessions
  }
}
