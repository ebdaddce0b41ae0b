/**
 * The nightly settlement as the source runs it: awaited calls on the store and
 * the gateway, a `for ... of` loop over the ranked candidates with `continue`
 * and early `return`, and the two tails (the HTTP cron route and the scheduled
 * function). Every method is proved to leave the store, the gateway's log and
 * its result exactly as the matching stage of Settlement describes.
 */
module SettlementRun {
  import opened Wrappers
  import opened Bidders
  import opened Store
  import opened Payments
  import opened Settlement

  function WorldOf(store: CrownStore, gateway: Gateway): World
    reads store, gateway
  {
    World(store.State(), gateway.requests)
  }

  function CtxOf(store: CrownStore, gateway: Gateway, dateKey: string, now: int): Ctx {
    Ctx(store.faults, gateway.respond, dateKey, now)
  }

  /** A turn as a method reports it: Some(outcome) when the run is over. */
  function TurnOf(exit: Option<Outcome>, w: World): Turn {
    if exit.Some? then Exit(Ending(w, exit.value)) else Next(w)
  }

  /** The outer catch: a best-effort clearLock whose own failure is swallowed. */
  method AbortRun(store: CrownStore, gateway: Gateway, dateKey: string, now: int, message: string)
    returns (outcome: Outcome)
    modifies store
    ensures Ending(WorldOf(store, gateway), outcome) ==
            Abort(old(WorldOf(store, gateway)), CtxOf(store, gateway, dateKey, now), message)
  {
    var ignored := store.Perform(SetCrown(ClearLock));
    outcome := Crashed(message);
  }

  /** One awaited store call. */
  method PerformOp(store: CrownStore, gateway: Gateway, dateKey: string, now: int, op: Op)
    returns (err: Option<string>)
    modifies store
    ensures Did(WorldOf(store, gateway), err) == Do(old(WorldOf(store, gateway)), CtxOf(store, gateway, dateKey, now), op)
  {
    err := store.Perform(op);
  }

  method Perform2(store: CrownStore, gateway: Gateway, dateKey: string, now: int, a: Op, b: Op)
    returns (err: Option<string>)
    modifies store
    ensures Did(WorldOf(store, gateway), err) ==
            Do2(old(WorldOf(store, gateway)), CtxOf(store, gateway, dateKey, now), a, b)
  {
    err := PerformOp(store, gateway, dateKey, now, a);
    if err.None? {
      err := PerformOp(store, gateway, dateKey, now, b);
    }
  }

  method Perform3(store: CrownStore, gateway: Gateway, dateKey: string, now: int, a: Op, b: Op, c: Op)
    returns (err: Option<string>)
    modifies store
    ensures Did(WorldOf(store, gateway), err) ==
            Do3(old(WorldOf(store, gateway)), CtxOf(store, gateway, dateKey, now), a, b, c)
  {
    ghost var ctx := CtxOf(store, gateway, dateKey, now);
    ghost var w0 := WorldOf(store, gateway);
    err := PerformOp(store, gateway, dateKey, now, a);
    ghost var d := Did(WorldOf(store, gateway), err);
    assert d == Do(w0, ctx, a);
    if err.None? {
      assert Do3(w0, ctx, a, b, c) == Do2(d.w, ctx, b, c);
      err := Perform2(store, gateway, dateKey, now, b, c);
    } else {
      assert Do3(w0, ctx, a, b, c) == d;
    }
  }

  method FinishRun(store: CrownStore, gateway: Gateway, dateKey: string, now: int, a: Op, b: Op, done: Outcome)
    returns (outcome: Outcome)
    modifies store
    ensures Ending(WorldOf(store, gateway), outcome) ==
            Finish(old(WorldOf(store, gateway)), CtxOf(store, gateway, dateKey, now), a, b, done)
  {
    var err := Perform3(store, gateway, dateKey, now, a, b, SetCrown(ClearLock));
    if err.Some? {
      outcome := AbortRun(store, gateway, dateKey, now, err.value);
    } else {
      outcome := done;
    }
  }

  /** Appends a NIGHTLY_FAIL event and continues; a store throw ends the run in the outer catch. */
  method RecordFailure(store: CrownStore, gateway: Gateway, dateKey: string, now: int, e: Event)
    returns (exit: Option<Outcome>)
    modifies store
    ensures TurnOf(exit, WorldOf(store, gateway)) ==
            Skip(old(WorldOf(store, gateway)), CtxOf(store, gateway, dateKey, now), e)
  {
    var err := store.Perform(AddEvent(e));
    if err.Some? {
      var outcome := AbortRun(store, gateway, dateKey, now, err.value);
      exit := Some(outcome);
    } else {
      exit := None;
    }
  }

  /** One iteration of the charge loop. */
  method AttemptCharge(store: CrownStore, gateway: Gateway, dateKey: string, now: int, c: Candidate)
    returns (exit: Option<Outcome>)
    modifies store, gateway
    ensures TurnOf(exit, WorldOf(store, gateway)) ==
            TryCandidate(old(WorldOf(store, gateway)), CtxOf(store, gateway, dateKey, now), c)
  {
    var ctx := CtxOf(store, gateway, dateKey, now);
    var amountCents := AmountCentsFromUser(c.u);
    var customerId := c.u.stripeCustomerId;
    var paymentMethodId := PaymentMethodFromUser(c.u);

    if !AmountValid(amountCents) {
      exit := RecordFailure(store, gateway, dateKey, now, FailEvent(ctx, c.uid, amountCents.GetOr(0), InvalidAmountError));
      return;
    }
    if customerId == "" || paymentMethodId.None? {
      exit := RecordFailure(store, gateway, dateKey, now, FailEvent(ctx, c.uid, amountCents.value, MissingPaymentError));
      return;
    }

    var amount := amountCents.value;
    var pi := gateway.CreatePaymentIntent(NightlyRequest(dateKey, c));
    match pi {
      case Thrown(m) =>
        exit := RecordFailure(store, gateway, dateKey, now, FailEvent(ctx, c.uid, amount, ChargeErrorText(m)));
      case Intent(id, status) =>
        if status != "succeeded" {
          var err := store.Perform(AddEvent(StatusFailEvent(ctx, c.uid, amount, id, status)));
          if err.Some? {
            exit := RecordFailure(store, gateway, dateKey, now, FailEvent(ctx, c.uid, amount, ChargeErrorText(err.value)));
          } else {
            exit := None;
          }
        } else {
          var err := Perform3(store, gateway, dateKey, now,
                              SetCrown(PublishNightlyWin(c.uid, amount, id, dateKey, now)),
                              AddEvent(WinEvent(ctx, c.uid, amount, id)),
                              SetCrown(ClearLock));
          if err.Some? {
            exit := RecordFailure(store, gateway, dateKey, now, FailEvent(ctx, c.uid, amount, ChargeErrorText(err.value)));
          } else {
            exit := Some(Won(c.uid, amount, id));
          }
        }
    }
  }

  /** The charge loop: each ranked candidate in turn until one of them ends the run. */
  method ChargeRanked(store: CrownStore, gateway: Gateway, dateKey: string, now: int, ranked: seq<Candidate>)
    returns (outcome: Outcome)
    modifies store, gateway
    ensures Ending(WorldOf(store, gateway), outcome) ==
            ChargeLoop(old(WorldOf(store, gateway)), CtxOf(store, gateway, dateKey, now), ranked, 0)
  {
    ghost var w0 := WorldOf(store, gateway);
    var ctx := CtxOf(store, gateway, dateKey, now);
    var i := 0;
    while i < |ranked|
      invariant 0 <= i <= |ranked|
      invariant ChargeLoop(WorldOf(store, gateway), ctx, ranked, i) == ChargeLoop(w0, ctx, ranked, 0)
    {
      var exit := AttemptCharge(store, gateway, dateKey, now, ranked[i]);
      if exit.Some? {
        outcome := exit.value;
        return;
      }
      i := i + 1;
    }
    outcome := FinishRun(store, gateway, dateKey, now, SetCrown(RecordAttempt(dateKey, "all_failed")),
                         AddEvent(FailEvent(ctx, "all", 0, AllFailedError)), AllFailed);
  }

  /** Everything after the lock is taken: the users query, the two empty cases, the ranking and the loop. */
  method SettleLocked(store: CrownStore, gateway: Gateway, dateKey: string, now: int, rows: seq<Candidate>)
    returns (outcome: Outcome)
    modifies store, gateway
    ensures Ending(WorldOf(store, gateway), outcome) ==
            AfterLock(old(WorldOf(store, gateway)), CtxOf(store, gateway, dateKey, now), rows)
  {
    var ctx := CtxOf(store, gateway, dateKey, now);
    var err := store.Perform(QueryBidders);
    if err.Some? {
      outcome := AbortRun(store, gateway, dateKey, now, err.value);
      return;
    }
    if rows == [] {
      outcome := FinishRun(store, gateway, dateKey, now, AddEvent(FailEvent(ctx, "none", 0, NoOffersError)),
                           SetCrown(RecordAttempt(dateKey, "no_candidates")), NoCandidates);
      return;
    }
    var candidates := ActiveOnly(rows);
    if candidates == [] {
      outcome := FinishRun(store, gateway, dateKey, now, AddEvent(FailEvent(ctx, "none", 0, NoActiveError)),
                           SetCrown(RecordAttempt(dateKey, "no_active_candidates")), NoActiveCandidates);
      return;
    }
    var ranked := Rank(candidates);
    outcome := ChargeRanked(store, gateway, dateKey, now, ranked);
  }

  /** The shared body of both nightly entry points, from the lock transaction to the last exit. */
  method RunSettlement(store: CrownStore, gateway: Gateway, dateKey: string, now: int, rows: seq<Candidate>)
    returns (outcome: Outcome)
    modifies store, gateway
    ensures Ending(WorldOf(store, gateway), outcome) ==
            Settle(old(WorldOf(store, gateway)), CtxOf(store, gateway, dateKey, now), rows)
  {
    var lockState := store.RunLockTransaction(dateKey, now);
    if lockState.Failure? {
      outcome := AbortRun(store, gateway, dateKey, now, lockState.error);
    } else if lockState.value == SettledToday {
      outcome := AlreadySettled;
    } else if lockState.value == LockHeld {
      outcome := AlreadySettling;
    } else {
      outcome := SettleLocked(store, gateway, dateKey, now, rows);
    }
  }

  /** The JSON bodies the cron route answers with. */
  datatype RouteBody =
    | ForcedUnlock(dateKey: string)
    | DidNothing(reason: string, dateKey: string)
    | WinnerCharged(winnerUid: string, amountCents: int, paymentIntentId: string, dateKey: string)
    | Failed(error: string, failedDateKey: Option<string>)

  datatype RouteReply =
    | Threw(message: string)            // the handler throws before or outside its try block
    | Json(status: int, body: RouteBody)

  /** `requireCronSecret`: the secret must be configured and the header must carry it. */
  predicate CronAuthorized(cronSecret: string, header: Option<string>) {
    cronSecret != "" && header == Some(cronSecret)
  }

  /** How the cron route reports each ending. */
  function RouteReplyOf(outcome: Outcome, dateKey: string): (r: RouteReply)
    ensures r.Json?
    ensures r.status == 200 <==> outcome.AlreadySettled? || outcome.AlreadySettling? || outcome.Won?
    ensures r.status == 404 <==> outcome.NoCandidates? || outcome.NoActiveCandidates?
    ensures r.status == 402 <==> outcome.AllFailed?
    ensures r.status == 500 <==> outcome.Crashed?
    ensures r.body.WinnerCharged? <==> outcome.Won?
  {
    match outcome
    case AlreadySettled => Json(200, DidNothing("alreadySettled", dateKey))
    case AlreadySettling => Json(200, DidNothing("alreadySettling", dateKey))
    case NoCandidates => Json(404, Failed("No offers found", Some(dateKey)))
    case NoActiveCandidates => Json(404, Failed("No active offers found", Some(dateKey)))
    case Won(uid, amountCents, id) => Json(200, WinnerCharged(uid, amountCents, id, dateKey))
    case AllFailed => Json(402, Failed("All top offers failed", Some(dateKey)))
    case Crashed(m) => Json(500, Failed(if m == "" then "Server error" else m, None))
  }

  /** POST /api/cron/settle-crown. */
  method SettleCrownRoute(store: CrownStore, gateway: Gateway, cronSecret: string, header: Option<string>,
                          force: Option<string>, dateKey: string, now: int, rows: seq<Candidate>)
    returns (reply: RouteReply)
    modifies store, gateway
    ensures !CronAuthorized(cronSecret, header) ==>
              reply == Threw("Unauthorized cron") && WorldOf(store, gateway) == old(WorldOf(store, gateway))
    ensures CronAuthorized(cronSecret, header) && force == Some("1") ==>
              gateway.requests == old(gateway.requests) &&
              Done(store.State(), if reply.Threw? then Some(reply.message) else None) ==
                Step(old(store.State()), store.faults, SetCrown(ClearLock)) &&
              (reply.Json? ==> reply == Json(200, ForcedUnlock(dateKey)))
    ensures CronAuthorized(cronSecret, header) && force != Some("1") ==>
              var e := Settle(old(WorldOf(store, gateway)), CtxOf(store, gateway, dateKey, now), rows);
              WorldOf(store, gateway) == e.w && reply == RouteReplyOf(e.outcome, dateKey)
  {
    if !CronAuthorized(cronSecret, header) {
      reply := Threw("Unauthorized cron");
      return;
    }
    if force == Some("1") {
      var err := store.Perform(SetCrown(ClearLock));
      if err.Some? {
        reply := Threw(err.value);
      } else {
        reply := Json(200, ForcedUnlock(dateKey));
      }
      return;
    }
    var outcome := RunSettlement(store, gateway, dateKey, now, rows);
    reply := RouteReplyOf(outcome, dateKey);
  }

  /** How the scheduled function ends: it returns, or rethrows the error after the cleanup. */
  datatype ScheduledResult = Returned | Rethrown(message: string)

  /** settleCrownNightly. */
  method SettleCrownNightly(store: CrownStore, gateway: Gateway, dateKey: string, now: int, rows: seq<Candidate>)
    returns (r: ScheduledResult)
    modifies store, gateway
    ensures var e := Settle(old(WorldOf(store, gateway)), CtxOf(store, gateway, dateKey, now), rows);
            WorldOf(store, gateway) == e.w &&
            r == (if e.outcome.Crashed? then Rethrown(e.outcome.message) else Returned)
  {
    var outcome := RunSettlement(store, gateway, dateKey, now, rows);
    if outcome.Crashed? {
      r := Rethrown(outcome.message);
    } else {
      r := Returned;
    }
  }
}
