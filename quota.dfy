/**
 * The per-account call quota consulted and charged by the create endpoint
 * (the `users_profile` table).
 */
module Quota {
  import opened Wrappers

  /** A `users_profile` row: how many sessions the account may create, and how many it has. */
  datatype Profile = Profile(callsLimit: int, callsUsed: int)

  /**
   * The quota check of a create request. An account without a profile row is
   * not checked at all; otherwise the request is refused once the used count
   * has reached the limit.
   */
  function Admits(p: Option<Profile>): (ok: bool)
    ensures !ok ==> p.Some? && p.value.callsUsed >= p.value.callsLimit
    ensures ok && p.Some? ==> p.value.callsUsed + 1 <= p.value.callsLimit
  {
    p.None? || p.value.callsUsed < p.value.callsLimit
  }

  /**
   * The value the usage write stores: the used count as it was read before
   * the insert, or 0 when no profile was read, plus one.
   */
  function UsedAfterCreate(read: Option<Profile>): int {
    (if read.Some? then read.value.callsUsed else 0) + 1
  }

  /** The usage write when the profile was read: one more call used. */
  function Charge(p: Profile): (c: Profile)
    ensures c.callsLimit == p.callsLimit
    ensures Admits(Some(p)) ==> c.callsUsed <= c.callsLimit
    ensures c.callsUsed > p.callsUsed
  {
    p.(callsUsed := UsedAfterCreate(Some(p)))
  }

  function Min(a: int, b: int): int { if a < b then a else b }

  function Max0(a: int): nat { if a < 0 then 0 else a }

  function CountTrue(bs: seq<bool>): (n: nat)
    ensures n <= |bs|
  {
    if bs == [] then 0 else (if bs[0] then 1 else 0) + CountTrue(bs[1..])
  }

  /**
   * One account's create requests served one after another against its
   * profile: `inserted[i]` is whether the session insert of the i-th request
   * would succeed. Gives the final profile and the number of sessions created.
   */
  function ServeCreates(p: Profile, inserted: seq<bool>): (Profile, nat)
    decreases |inserted|
  {
    if inserted == [] then (p, 0)
    else if !Admits(Some(p)) || !inserted[0] then ServeCreates(p, inserted[1..])
    else
      var (q, n) := ServeCreates(Charge(p), inserted[1..]);
      (q, n + 1)
  }

  /**
   * Served one at a time, create requests use exactly one unit of quota per
   * session created, create as many sessions as the inserts allow up to the
   * remaining quota and no more, and never take a profile that was within its
   * limit past it.
   */
  lemma {:induction false} ServeCreatesRespectsQuota(p: Profile, inserted: seq<bool>)
    ensures var (q, n) := ServeCreates(p, inserted);
            && q.callsLimit == p.callsLimit
            && q.callsUsed == p.callsUsed + n
            && n == Min(CountTrue(inserted), Max0(p.callsLimit - p.callsUsed))
            && (p.callsUsed <= p.callsLimit ==> q.callsUsed <= p.callsLimit)
    decreases |inserted|
  {
    if inserted != [] {
      if !Admits(Some(p)) || !inserted[0] {
        ServeCreatesRespectsQuota(p, inserted[1..]);
      } else {
        ServeCreatesRespectsQuota(Charge(p), inserted[1..]);
      }
    }
  }
}
