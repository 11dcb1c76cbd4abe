/** The account record shared by the admin panel, the auth session and
    the dashboard (src/types/index.ts). Timestamps are integer
    milliseconds since the epoch; money is an exact real. */
module Types {
  import opened Wrappers

  datatype SubscriptionStatus = Trial | Active | Canceled | Pending

  datatype User = User(
    id: string,
    email: string,
    fullName: string,
    businessName: string,
    address: string,
    city: string,
    postcode: string,
    phone: string,
    isApproved: bool,
    trialEndsAt: Option<int>,
    subscriptionAmount: real,
    subscriptionStatus: SubscriptionStatus,
    createdAt: int)

  /** Milliseconds in a day: `1000 * 60 * 60 * 24`. */
  const DAY_MS: int := 86_400_000

  /** The lifecycle invariant of an account: a pending subscription
      belongs to an unapproved account, and an unapproved account has no
      trial end date. */
  predicate WellFormed(u: User) {
    (u.subscriptionStatus == Pending ==> !u.isApproved) &&
    (!u.isApproved ==> u.trialEndsAt == None)
  }

  predicate AllWellFormed(us: seq<User>) {
    forall i :: 0 <= i < |us| ==> WellFormed(us[i])
  }
}
