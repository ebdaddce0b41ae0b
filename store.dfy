/**
 * The document store as the crown engine sees it: the singleton document
 * crownStatus/current, the append-only crown_events collection and the users
 * collection. Every operation the engine performs is numbered; an operation
 * whose number the fault table lists throws that message and changes nothing,
 * which models any store failure at any point of a run.
 */
module Store {
  import opened Wrappers
  import opened Bidders

  /**
   * The fields of crownStatus/current the engine reads or merges. None means
   * the field is absent or null; a document that does not exist reads as all
   * None. Times are milliseconds.
   */
  datatype CrownStatus = CrownStatus(
    activeUid: Option<string>,
    activePriceCents: Option<int>,
    activePaymentIntentId: Option<string>,
    activeDateKey: Option<string>,
    activeSince: Option<int>,
    assignedBy: Option<string>,
    lastSettledForDate: Option<string>,
    settlementInProgressAt: Option<int>,
    settlementInProgressForDate: Option<string>,
    lastAttemptForDate: Option<string>,
    lastAttemptResult: Option<string>)

  /** The fields that say who holds the crown. */
  datatype Crown = Crown(
    activeUid: Option<string>,
    activePriceCents: Option<int>,
    activePaymentIntentId: Option<string>,
    activeDateKey: Option<string>,
    activeSince: Option<int>,
    assignedBy: Option<string>,
    lastSettledForDate: Option<string>)

  function CrownOf(st: CrownStatus): Crown {
    Crown(st.activeUid, st.activePriceCents, st.activePaymentIntentId, st.activeDateKey,
          st.activeSince, st.assignedBy, st.lastSettledForDate)
  }

  predicate Unlocked(st: CrownStatus) {
    st.settlementInProgressAt.None? && st.settlementInProgressForDate.None?
  }

  /** The partial documents the engine writes with `set(..., { merge: true })`. */
  datatype Merge =
    | ClearLock
    | TakeLock(at: int, dateKey: string)
    | RecordAttempt(dateKey: string, result: string)
    | PublishNightlyWin(uid: string, amountCents: int, paymentIntentId: string, dateKey: string, since: int)
    | PublishAdminWin(uid: string, amountCents: int, paymentIntentId: string, dateKey: string, since: int)

  /** A merge replaces the fields it names and leaves every other field alone. */
  function ApplyMerge(st: CrownStatus, m: Merge): (r: CrownStatus)
    ensures !m.PublishNightlyWin? && !m.PublishAdminWin? ==> CrownOf(r) == CrownOf(st)
    ensures !m.ClearLock? && !m.TakeLock? ==>
              r.settlementInProgressAt == st.settlementInProgressAt &&
              r.settlementInProgressForDate == st.settlementInProgressForDate
    ensures !m.RecordAttempt? ==> r.lastAttemptForDate == st.lastAttemptForDate && r.lastAttemptResult == st.lastAttemptResult
    ensures m.ClearLock? ==> Unlocked(r)
    ensures m.PublishAdminWin? ==> r.lastSettledForDate == st.lastSettledForDate && r.assignedBy == st.assignedBy
  {
    match m
    case ClearLock =>
      st.(settlementInProgressAt := None, settlementInProgressForDate := None)
    case TakeLock(at, dateKey) =>
      st.(settlementInProgressAt := Some(at), settlementInProgressForDate := Some(dateKey))
    case RecordAttempt(dateKey, result) =>
      st.(lastAttemptForDate := Some(dateKey), lastAttemptResult := Some(result))
    case PublishNightlyWin(uid, amountCents, id, dateKey, since) =>
      st.(activeUid := Some(uid), activePriceCents := Some(amountCents), activePaymentIntentId := Some(id),
          activeDateKey := Some(dateKey), activeSince := Some(since), assignedBy := Some("nightly"),
          lastSettledForDate := Some(dateKey))
    case PublishAdminWin(uid, amountCents, id, dateKey, since) =>
      st.(activeUid := Some(uid), activePriceCents := Some(amountCents), activePaymentIntentId := Some(id),
          activeDateKey := Some(dateKey), activeSince := Some(since))
  }

  datatype EventType = NightlyFail | NightlyWin | AdminAssignFail | AdminAssignWin

  /** One crown_events document; dateKey, paymentIntentId, stripeStatus and error appear only on some. */
  datatype Event = Event(
    kind: EventType,
    uid: string,
    amountCents: int,
    dateKey: Option<string>,
    paymentIntentId: Option<string>,
    stripeStatus: Option<string>,
    error: Option<string>)

  /** How long a settlement lock holds off another run: ten minutes. */
  const LockTtlMillis: int := 10 * 60 * 1000

  /** What the lock transaction decides from the document it read. */
  datatype Guard = SettledToday | LockHeld | Acquired

  function LockGuard(st: CrownStatus, dateKey: string, now: int): Guard {
    if st.lastSettledForDate == Some(dateKey) then SettledToday
    else if st.settlementInProgressAt.Some? && now - st.settlementInProgressAt.value < LockTtlMillis then LockHeld
    else Acquired
  }

  /**
   * Who gets through the lock guard: a run for a day already settled stops,
   * a run that finds a lock younger than ten minutes stops, and every other
   * run takes the lock for its own day.
   */
  lemma LockGuardDecides(st: CrownStatus, dateKey: string, now: int)
    ensures LockGuard(st, dateKey, now) == SettledToday <==> st.lastSettledForDate == Some(dateKey)
    ensures LockGuard(st, dateKey, now) == LockHeld <==>
              st.lastSettledForDate != Some(dateKey) && st.settlementInProgressAt.Some? &&
              now - st.settlementInProgressAt.value < LockTtlMillis
    ensures LockGuard(st, dateKey, now) == Acquired ==>
              var r := ApplyMerge(st, TakeLock(now, dateKey));
              r.settlementInProgressAt == Some(now) && r.settlementInProgressForDate == Some(dateKey) &&
              CrownOf(r) == CrownOf(st)
  {
  }

  /** A lock taken at `now` keeps out every run for the next ten minutes, and no longer. */
  lemma LockExpiresAfterTtl(st: CrownStatus, dateKey: string, now: int, later: int, otherDay: string)
    requires st.lastSettledForDate != Some(otherDay)
    ensures var locked := ApplyMerge(st, TakeLock(now, dateKey));
            LockGuard(locked, otherDay, later) == (if later - now < LockTtlMillis then LockHeld else Acquired)
  {
  }

  /** The collections the engine touches, and how many operations have been issued. */
  datatype Db = Db(status: CrownStatus, events: seq<Event>, users: map<string, UserDoc>, ops: nat)

  /** The store operations the engine issues. */
  datatype Op =
    | LockTransaction(dateKey: string, now: int)   // read crownStatus/current, take the lock if allowed
    | QueryBidders                                 // the users query for crownPrice > 0
    | GetUser(uid: string)                         // users/{uid}
    | SetCrown(m: Merge)                           // crownStatus/current, merged
    | AddEvent(e: Event)                           // crown_events, appended
    | SetUserPaymentMethod(uid: string, pm: string)  // users/{uid}, merged

  /** The effect of an operation that succeeds. */
  function Apply(db: Db, op: Op): (r: Db)
    ensures r.ops == db.ops
    ensures op.AddEvent? ==> r.events == db.events + [op.e]
    ensures !op.AddEvent? ==> r.events == db.events
    ensures !op.SetCrown? && !op.LockTransaction? ==> r.status == db.status
    ensures !op.SetUserPaymentMethod? ==> r.users == db.users
  {
    match op
    case LockTransaction(dateKey, now) =>
      if LockGuard(db.status, dateKey, now) == Acquired
      then db.(status := ApplyMerge(db.status, TakeLock(now, dateKey)))
      else db
    case QueryBidders => db
    case GetUser(_) => db
    case SetCrown(m) => db.(status := ApplyMerge(db.status, m))
    case AddEvent(e) => db.(events := db.events + [e])
    case SetUserPaymentMethod(uid, pm) =>
      if uid in db.users
      then db.(users := db.users[uid := db.users[uid].(stripeDefaultPaymentMethodId := Some(pm))])
      else db
  }

  /** What an operation leaves and whether it threw. */
  datatype Done = Done(db: Db, err: Option<string>)

  /** Issues one operation: the fault table decides whether it throws. */
  function Step(db: Db, faults: map<nat, string>, op: Op): (r: Done)
    ensures r.db.ops == db.ops + 1
    ensures r.err.Some? <==> db.ops in faults
    ensures r.err.Some? ==> r.err.value == faults[db.ops] && r.db == db.(ops := db.ops + 1)
    ensures r.err.None? ==> r.db == Apply(db, op).(ops := db.ops + 1)
  {
    if db.ops in faults then Done(db.(ops := db.ops + 1), Some(faults[db.ops]))
    else Done(Apply(db, op).(ops := db.ops + 1), None)
  }

  /** The store: its documents change in place as operations succeed. */
  class CrownStore {
    var status: CrownStatus
    var events: seq<Event>
    var users: map<string, UserDoc>
    var ops: nat
    const faults: map<nat, string>

    function State(): Db
      reads this
    {
      Db(status, events, users, ops)
    }

    constructor (status: CrownStatus, events: seq<Event>, users: map<string, UserDoc>, faults: map<nat, string>)
      ensures State() == Db(status, events, users, 0) && this.faults == faults
    {
      this.status := status;
      this.events := events;
      this.users := users;
      this.ops := 0;
      this.faults := faults;
    }

    /** Issues op: on a fault only the operation count moves. */
    method Perform(op: Op) returns (err: Option<string>)
      modifies this
      ensures Done(State(), err) == Step(old(State()), faults, op)
    {
      if ops in faults {
        err := Some(faults[ops]);
      } else {
        err := None;
        match op {
          case LockTransaction(dateKey, now) =>
            if LockGuard(status, dateKey, now) == Acquired {
              status := ApplyMerge(status, TakeLock(now, dateKey));
            }
          case QueryBidders =>
          case GetUser(_) =>
          case SetCrown(m) =>
            status := ApplyMerge(status, m);
          case AddEvent(e) =>
            events := events + [e];
          case SetUserPaymentMethod(uid, pm) =>
            if uid in users {
              users := users[uid := users[uid].(stripeDefaultPaymentMethodId := Some(pm))];
            }
        }
      }
      ops := ops + 1;
    }

    /** runTransaction on crownStatus/current: the guard's decision, or the error it threw. */
    method RunLockTransaction(dateKey: string, now: int) returns (r: Result<Guard, string>)
      modifies this
      ensures Done(State(), if r.Failure? then Some(r.error) else None) ==
              Step(old(State()), faults, LockTransaction(dateKey, now))
      ensures r.Success? ==> r.value == LockGuard(old(status), dateKey, now)
    {
      var guard := LockGuard(status, dateKey, now);
      var err := Perform(LockTransaction(dateKey, now));
      if err.Some? {
        r := Failure(err.value);
      } else {
        r := Success(guard);
      }
    }

    /** users/{uid}.get(): the document if it exists, or the error the read threw. */
    method ReadUser(uid: string) returns (r: Result<Option<UserDoc>, string>)
      modifies this
      ensures Done(State(), if r.Failure? then Some(r.error) else None) == Step(old(State()), faults, GetUser(uid))
      ensures r.Success? ==> r.value == (if uid in old(users) then Some(old(users)[uid]) else None)
    {
      var found := if uid in users then Some(users[uid]) else None;
      var err := Perform(GetUser(uid));
      if err.Some? {
        r := Failure(err.value);
      } else {
        r := Success(found);
      }
    }
  }
}
