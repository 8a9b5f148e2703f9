/**
 * The free-tier usage gate: a per-device record of uploads made today and
 * of a lockout, kept in browser storage under the key `truthcard_usage`
 * and mirrored in the component's `uploadCount`, `lastUploadDate`,
 * `isLocked` and `lockoutEndDate` state.
 *
 * Calendar days are integers (`today`), instants are integers (`now`),
 * and the storage slot is an optional record. An empty `lockoutEnd`
 * string is `None`: the source compares `new Date('')`, an invalid date,
 * with the current time, and that comparison is false.
 *
 * This module gives the gate's transitions as functions on a value; the
 * component class in module Session performs them in place and is
 * specified by them.
 */
module UsageGate {
  import opened Wrappers

  datatype Tier = Free | Roaster

  /** The persisted record {count, date, locked, lockoutEnd}. */
  datatype UsageRecord = UsageRecord(count: int, date: int, locked: bool, lockoutEnd: Option<int>)

  /** The component's usage state together with the storage slot. */
  datatype Usage = Usage(
    count: int,              // uploadCount
    lastDate: Option<int>,   // lastUploadDate ('' is None)
    locked: bool,            // isLocked
    lockoutEnd: Option<int>, // lockoutEndDate ('' is None)
    stored: Option<UsageRecord>)

  /** The third upload attempt of a day is the one that locks. */
  const DailyLimit: int := 3

  /** The state at mount, before reconciliation, with whatever storage holds. */
  function Fresh(stored: Option<UsageRecord>): Usage
  {
    Usage(0, None, false, None, stored)
  }

  /** A stored record whose lockout is still running at instant now. */
  predicate LockActive(r: UsageRecord, now: int)
  {
    r.locked && r.lockoutEnd.Some? && r.lockoutEnd.value > now
  }

  /** What the gate writes: locked exactly when the count reached the limit, with a lockout end exactly when locked, and that end after now. */
  predicate WellFormed(r: UsageRecord, now: int)
  {
    && (r.locked <==> r.count >= DailyLimit)
    && (r.locked <==> r.lockoutEnd.Some?)
    && (r.locked ==> r.lockoutEnd.value > now)
  }

  /**
   * Start-up reconciliation with storage: a running lockout wins; else a
   * record of today restores its count; else the count restarts at 0 and
   * a fresh record for today is written. With nothing stored, nothing
   * changes.
   */
  function Reconciled(u: Usage, today: int, now: int): Usage
  {
    match u.stored
    case None => u
    case Some(r) =>
      if LockActive(r, now) then u.(locked := true, lockoutEnd := r.lockoutEnd)
      else if r.date == today then u.(count := r.count, lastDate := Some(r.date))
      else u.(count := 0, lastDate := Some(today), stored := Some(UsageRecord(0, today, false, None)))
  }

  /**
   * `handleUploadLimit`: the paid tier always passes and touches nothing;
   * on the free tier the new count is persisted, and either reaching the
   * limit locks until monthLater (count left as it was) and refuses, or
   * the new count is adopted and the upload passes.
   */
  function Authorized(u: Usage, tier: Tier, today: int, now: int, monthLater: int): (r: (Usage, bool))
    requires now < monthLater
    ensures tier == Free ==> r.0.stored.Some? && r.0.stored.value.date == today
    ensures tier == Free ==> WellFormed(r.0.stored.value, now)
    ensures tier == Free ==> (r.1 <==> !r.0.stored.value.locked)
    ensures tier == Free ==> r.0.stored.value.count == u.count + 1
    ensures tier == Free && r.1 ==> r.0.count == u.count + 1 && r.0.lastDate == Some(today)
    ensures r.1 ==> r.0.locked == u.locked && r.0.lockoutEnd == u.lockoutEnd
    ensures !r.1 ==> r.0.locked && r.0.count == u.count
    ensures !r.1 ==> r.0.lockoutEnd == Some(monthLater) && r.0.lastDate == u.lastDate
    ensures tier == Roaster ==> r == (u, true)
  {
    if tier == Roaster then (u, true)
    else
      var newCount := u.count + 1;
      if newCount >= DailyLimit then
        (u.(stored := Some(UsageRecord(newCount, today, true, Some(monthLater))),
            locked := true, lockoutEnd := Some(monthLater)), false)
      else
        (u.(stored := Some(UsageRecord(newCount, today, false, None)),
            count := newCount, lastDate := Some(today)), true)
  }

  datatype Outcome = Granted | DeniedLocked | DeniedLimit

  /** One upload attempt as designed: the "already locked" guard on the free tier first, then `handleUploadLimit`. */
  function Attempt(u: Usage, tier: Tier, today: int, now: int, monthLater: int): (r: (Usage, Outcome))
    requires now < monthLater
    ensures r.1 == DeniedLocked ==> r.0 == u
    ensures u.locked && tier == Free ==> r.1 == DeniedLocked
    ensures tier == Roaster ==> r == (u, Granted)
    ensures !(u.locked && tier == Free) ==>
      var (v, ok) := Authorized(u, tier, today, now, monthLater);
      r.0 == v && (r.1 == Granted <==> ok) && (r.1 == DeniedLimit <==> !ok)
  {
    if u.locked && tier == Free then (u, DeniedLocked)
    else
      var (u', ok) := Authorized(u, tier, today, now, monthLater);
      (u', if ok then Granted else DeniedLimit)
  }

  /** k free-tier attempts in a row on one day: the final state and how many were granted. */
  function Run(u: Usage, k: nat, today: int, now: int, monthLater: int): (Usage, nat)
    requires now < monthLater
    decreases k
  {
    if k == 0 then (u, 0)
    else
      var (u1, o) := Attempt(u, Free, today, now, monthLater);
      var (u2, g) := Run(u1, k - 1, today, now, monthLater);
      (u2, g + if o == Granted then 1 else 0)
  }

  /** The uploads still allowed to an unlocked session: those that keep the count below the limit. */
  function Quota(u: Usage): nat
  {
    if u.locked || u.count >= DailyLimit - 1 then 0 else DailyLimit - 1 - u.count
  }

  // ---------------------------------------------------------------------
  // Properties of the gate

  /**
   * A run of k attempts grants exactly min(k, quota), and the session ends
   * locked exactly when it started locked or asked for more than its quota.
   */
  lemma {:induction false} RunGrantsQuota(u: Usage, k: nat, today: int, now: int, monthLater: int)
    requires now < monthLater
    ensures Run(u, k, today, now, monthLater).1 == Min(k, Quota(u))
    ensures Run(u, k, today, now, monthLater).0.locked <==> (u.locked || k > Quota(u))
    decreases k
  {
    if k > 0 {
      var (u1, o) := Attempt(u, Free, today, now, monthLater);
      RunGrantsQuota(u1, k - 1, today, now, monthLater);
      if u.locked {
        assert u1 == u;
      } else if u.count + 1 >= DailyLimit {
        assert u1.locked && Quota(u1) == 0 && o == DeniedLimit;
      } else {
        assert !u1.locked && u1.count == u.count + 1 && o == Granted;
      }
    }
  }

  /** From a fresh day the free tier gets two uploads: attempts one and two pass, the third locks, the fourth meets the lock. */
  lemma FreshDayAllowsTwo(stored: Option<UsageRecord>, today: int, now: int, monthLater: int)
    requires now < monthLater
    ensures var u0 := Fresh(stored);
      var (u1, o1) := Attempt(u0, Free, today, now, monthLater);
      var (u2, o2) := Attempt(u1, Free, today, now, monthLater);
      var (u3, o3) := Attempt(u2, Free, today, now, monthLater);
      var (u4, o4) := Attempt(u3, Free, today, now, monthLater);
      o1 == Granted && o2 == Granted && o3 == DeniedLimit && o4 == DeniedLocked
      && u3.stored == Some(UsageRecord(3, today, true, Some(monthLater))) && u3.count == 2
  {
  }

  /** Reconciliation restores the session from storage: unless locked, the session's count is the stored count and the stored date is today. */
  lemma ReconciledAgreesWithStorage(u: Usage, today: int, now: int)
    ensures var v := Reconciled(u, today, now);
      v.stored.Some? ==> v.locked || (v.stored.value.date == today && v.count == v.stored.value.count)
    ensures var v := Reconciled(u, today, now);
      u.stored.Some? && LockActive(u.stored.value, now) ==> v.locked && v.stored == u.stored
    ensures u.stored.None? ==> Reconciled(u, today, now) == u
    ensures Reconciled(u, today, now).locked <==> (u.locked || (u.stored.Some? && LockActive(u.stored.value, now)))
  {
  }

  /** At mount, a record of today whose lockout is not running restores its count and leaves the session unlocked. */
  lemma SameDayRestores(r: UsageRecord, today: int, now: int)
    requires !LockActive(r, now) && r.date == today
    ensures var v := Reconciled(Fresh(Some(r)), today, now);
      !v.locked && v.count == r.count && v.lastDate == Some(today) && v.stored == Some(r)
  {
  }

  /** Reloading on the same day or later is stable: reconciling twice is reconciling once. */
  lemma ReconcileIdempotent(u: Usage, today: int, now: int)
    ensures Reconciled(Reconciled(u, today, now), today, now) == Reconciled(u, today, now)
  {
  }

  /** A lockout written by the gate survives a reload at any instant before it ends, whatever the day. */
  lemma LockSurvivesReload(u: Usage, today: int, now: int, monthLater: int, laterDay: int, later: int)
    requires now < monthLater
    requires later < monthLater
    ensures var (v, ok) := Authorized(u, Free, today, now, monthLater);
      !ok ==> Reconciled(Fresh(v.stored), laterDay, later).locked
  {
  }

  /** A granted upload survives a reload on the same day: the restored count is the count after the upload. */
  lemma GrantSurvivesReload(u: Usage, today: int, now: int, monthLater: int, later: int)
    requires now < monthLater
    ensures var (v, ok) := Authorized(u, Free, today, now, monthLater);
      ok ==> var w := Reconciled(Fresh(v.stored), today, later);
        !w.locked && w.count == v.count && w.count == u.count + 1
  {
  }

  /**
   * On a new day, a record whose lockout is over (or that was never
   * locked) restarts the count at zero and is rewritten unlocked; a
   * lockout still running takes priority over the date.
   */
  lemma NewDayResets(u: Usage, today: int, now: int)
    requires u.stored.Some? && u.stored.value.date != today
    ensures var v := Reconciled(u, today, now);
      if LockActive(u.stored.value, now) then v.locked && v.count == u.count
      else v.count == 0 && v.stored == Some(UsageRecord(0, today, false, None)) && v.locked == u.locked
  {
  }
}
