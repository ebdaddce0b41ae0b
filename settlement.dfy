/**
 * The nightly settlement, shared by the HTTP cron route and the scheduled
 * function: the lock guard, the users query, the `isActive === true` filter,
 * the ranking, the charge loop that stops at the first succeeded charge, the
 * no-winner exits and the lock cleanup. Each stage is a function from the
 * state before it to the state after it; a store operation that throws moves
 * the run to the enclosing catch exactly as the source's try blocks do.
 */
module Settlement {
  import opened Wrappers
  import opened Bidders
  import opened Keys
  import opened Store
  import opened Payments

  /** One run's environment: the store's fault table, the gateway's answers, the day and the clock. */
  datatype Ctx = Ctx(faults: map<nat, string>, respond: ChargeRequest -> ChargeOutcome, dateKey: string, now: int)

  /** Everything a run changes: the store and the gateway's request log. */
  datatype World = World(db: Db, requests: seq<ChargeRequest>)

  /** How a run ended; the two tails turn this into an HTTP reply or a return/rethrow. */
  datatype Outcome =
    | AlreadySettled
    | AlreadySettling
    | NoCandidates
    | NoActiveCandidates
    | Won(uid: string, amountCents: int, paymentIntentId: string)
    | AllFailed
    | Crashed(message: string)

  datatype Ending = Ending(w: World, outcome: Outcome)

  /** The end of one candidate's turn: on to the next candidate, or out of the run. */
  datatype Turn = Next(w: World) | Exit(e: Ending)

  /** A store call's result: the new world and the message it threw, if any. */
  datatype Did = Did(w: World, err: Option<string>)

  const NoOffersError: string := "No offers found (no users with crownPrice > 0)"
  const NoActiveError: string := "No active bidders found (all bidders inactive)"
  const InvalidAmountError: string := "Invalid amount (crownPrice missing/too low)"
  const MissingPaymentError: string := "Missing stripeCustomerId or default payment method id"
  const AllFailedError: string := "All top candidates failed payment"

  function Do(w: World, ctx: Ctx, op: Op): (r: Did)
    ensures r.w.requests == w.requests
  {
    var d := Step(w.db, ctx.faults, op);
    Did(w.(db := d.db), d.err)
  }

  /** Two awaited store calls in a row: a throw from the first skips the second. */
  function Do2(w: World, ctx: Ctx, a: Op, b: Op): (r: Did)
    ensures r.w.requests == w.requests
  {
    var d := Do(w, ctx, a);
    if d.err.Some? then d else Do(d.w, ctx, b)
  }

  /** Three awaited store calls in a row: the first that throws ends the sequence. */
  function Do3(w: World, ctx: Ctx, a: Op, b: Op, c: Op): (r: Did)
    ensures r.w.requests == w.requests
  {
    var d := Do(w, ctx, a);
    if d.err.Some? then d else Do2(d.w, ctx, b, c)
  }

  function FailEvent(ctx: Ctx, uid: string, amountCents: int, error: string): Event {
    Event(NightlyFail, uid, amountCents, Some(ctx.dateKey), None, None, Some(error))
  }

  function StatusFailEvent(ctx: Ctx, uid: string, amountCents: int, id: string, status: string): Event {
    Event(NightlyFail, uid, amountCents, Some(ctx.dateKey), Some(id), Some(status), Some("Stripe status: " + status))
  }

  function WinEvent(ctx: Ctx, uid: string, amountCents: int, id: string): Event {
    Event(NightlyWin, uid, amountCents, Some(ctx.dateKey), Some(id), None, None)
  }

  /** `err?.message || "Charge error"`. */
  function ChargeErrorText(message: string): string {
    if message == "" then "Charge error" else message
  }

  /** A candidate that passes both skip rules and so reaches the gateway. */
  predicate Chargeable(c: Candidate) {
    AmountValid(AmountCentsFromUser(c.u)) && c.u.stripeCustomerId != "" && PaymentMethodFromUser(c.u).Some?
  }

  /** The charge a chargeable candidate gets, keyed `nightly:{dateKey}:{uid}:{amountCents}`. */
  function NightlyRequest(dateKey: string, c: Candidate): (r: ChargeRequest)
    requires Chargeable(c)
    ensures r.uid == c.uid && r.amountCents == AmountCentsFromUser(c.u).value >= MinChargeCents
    ensures r.idempotencyKey == NightlyKey(dateKey, c.uid, r.amountCents)
    ensures r.customer == c.u.stripeCustomerId && r.paymentMethod == PaymentMethodFromUser(c.u).value
  {
    var amount := AmountCentsFromUser(c.u).value;
    ChargeRequest(amount, "usd", c.u.stripeCustomerId, PaymentMethodFromUser(c.u).value,
                  NightlyKey(dateKey, c.uid, amount), c.uid, "crown_nightly")
  }

  /** The outer catch: clear the lock if the store lets us, then report the error. */
  function Abort(w: World, ctx: Ctx, message: string): Ending {
    Ending(Do(w, ctx, SetCrown(ClearLock)).w, Crashed(message))
  }

  /** Two writes and clearLock, then a normal exit; a throw goes to the outer catch. */
  function Finish(w: World, ctx: Ctx, a: Op, b: Op, outcome: Outcome): Ending {
    var d := Do3(w, ctx, a, b, SetCrown(ClearLock));
    if d.err.Some? then Abort(d.w, ctx, d.err.value) else Ending(d.w, outcome)
  }

  /** The exits before the charge loop: an event with uid "none", the attempt record, clearLock. */
  function NoWinnerExit(w: World, ctx: Ctx, error: string, result: string, outcome: Outcome): Ending {
    Finish(w, ctx, AddEvent(FailEvent(ctx, "none", 0, error)), SetCrown(RecordAttempt(ctx.dateKey, result)), outcome)
  }

  /** After the loop: the attempt record, the summary event with uid "all", clearLock. */
  function AllFailedExit(w: World, ctx: Ctx): Ending {
    Finish(w, ctx, SetCrown(RecordAttempt(ctx.dateKey, "all_failed")), AddEvent(FailEvent(ctx, "all", 0, AllFailedError)), AllFailed)
  }

  /** Records a failed turn and moves on; a store throw here reaches the outer catch. */
  function Skip(w: World, ctx: Ctx, e: Event): Turn {
    var d := Do(w, ctx, AddEvent(e));
    if d.err.Some? then Exit(Abort(d.w, ctx, d.err.value)) else Next(d.w)
  }

  /** The charge loop's own catch. */
  function Caught(w: World, ctx: Ctx, uid: string, amountCents: int, message: string): Turn {
    Skip(w, ctx, FailEvent(ctx, uid, amountCents, ChargeErrorText(message)))
  }

  /** Inside the charge loop's try, once the gateway has answered. */
  function AfterCharge(w: World, ctx: Ctx, uid: string, amountCents: int, out: ChargeOutcome): Turn {
    match out
    case Thrown(m) => Caught(w, ctx, uid, amountCents, m)
    case Intent(id, status) =>
      if status != "succeeded" then
        var d := Do(w, ctx, AddEvent(StatusFailEvent(ctx, uid, amountCents, id, status)));
        if d.err.Some? then Caught(d.w, ctx, uid, amountCents, d.err.value) else Next(d.w)
      else
        var d := Do3(w, ctx, SetCrown(PublishNightlyWin(uid, amountCents, id, ctx.dateKey, ctx.now)),
                     AddEvent(WinEvent(ctx, uid, amountCents, id)), SetCrown(ClearLock));
        if d.err.Some? then Caught(d.w, ctx, uid, amountCents, d.err.value)
        else Exit(Ending(d.w, Won(uid, amountCents, id)))
  }

  /** One candidate's turn of the charge loop. */
  function TryCandidate(w: World, ctx: Ctx, c: Candidate): Turn {
    var amount := AmountCentsFromUser(c.u);
    if !AmountValid(amount) then
      Skip(w, ctx, FailEvent(ctx, c.uid, amount.GetOr(0), InvalidAmountError))
    else if c.u.stripeCustomerId == "" || PaymentMethodFromUser(c.u).None? then
      Skip(w, ctx, FailEvent(ctx, c.uid, amount.value, MissingPaymentError))
    else
      var req := NightlyRequest(ctx.dateKey, c);
      AfterCharge(w.(requests := w.requests + [req]), ctx, c.uid, amount.value, ctx.respond(req))
  }

  /** The charge loop from the i-th ranked candidate on. */
  function ChargeLoop(w: World, ctx: Ctx, ranked: seq<Candidate>, i: nat): Ending
    requires i <= |ranked|
    decreases |ranked| - i
  {
    if i == |ranked| then AllFailedExit(w, ctx)
    else
      match TryCandidate(w, ctx, ranked[i])
      case Exit(e) => e
      case Next(w') => ChargeLoop(w', ctx, ranked, i + 1)
  }

  /** Everything after the lock is taken, given the rows the users query returns. */
  function AfterLock(w: World, ctx: Ctx, rows: seq<Candidate>): Ending {
    var d := Do(w, ctx, QueryBidders);
    if d.err.Some? then Abort(d.w, ctx, d.err.value)
    else if rows == [] then NoWinnerExit(d.w, ctx, NoOffersError, "no_candidates", NoCandidates)
    else
      var active := ActiveOnly(rows);
      if active == [] then NoWinnerExit(d.w, ctx, NoActiveError, "no_active_candidates", NoActiveCandidates)
      else ChargeLoop(d.w, ctx, Rank(active), 0)
  }

  /** The whole run, from the lock transaction on. */
  function Settle(w: World, ctx: Ctx, rows: seq<Candidate>): Ending {
    var d := Do(w, ctx, LockTransaction(ctx.dateKey, ctx.now));
    if d.err.Some? then Abort(d.w, ctx, d.err.value)
    else
      match LockGuard(w.db.status, ctx.dateKey, ctx.now)
      case SettledToday => Ending(d.w, AlreadySettled)
      case LockHeld => Ending(d.w, AlreadySettling)
      case Acquired => AfterLock(d.w, ctx, rows)
  }
}
