/**
 * What the nightly settlement guarantees, proved about Settlement's stages:
 * the guard's no-op exits, the lock release on every other exit, the winner
 * published only after a succeeded charge, charges that follow the ranking,
 * the whole run when the store never throws, and what a second run of the
 * same day does.
 */
module SettlementFacts {
  import opened Wrappers
  import opened Bidders
  import opened Keys
  import opened Store
  import opened Payments
  import opened Settlement

  // ----- The lock guard -----

  /** A day already settled, or a lock younger than ten minutes: the run stops and writes nothing. */
  lemma GuardStopsWithoutWrites(w: World, ctx: Ctx, rows: seq<Candidate>)
    requires w.db.ops !in ctx.faults
    requires LockGuard(w.db.status, ctx.dateKey, ctx.now) != Acquired
    ensures var e := Settle(w, ctx, rows);
            e.w.db.status == w.db.status && e.w.db.events == w.db.events && e.w.requests == w.requests &&
            e.outcome == (if w.db.status.lastSettledForDate == Some(ctx.dateKey) then AlreadySettled else AlreadySettling)
  {
    LockGuardDecides(w.db.status, ctx.dateKey, ctx.now);
  }

  /**
   * As written, a lock transaction that throws still sends the run to the
   * catch that clears the lock, so a run that never took the lock removes the
   * one another run holds.
   */
  lemma FailedLockTransactionStillClears(w: World, ctx: Ctx, rows: seq<Candidate>)
    requires w.db.ops in ctx.faults && w.db.ops + 1 !in ctx.faults
    ensures var e := Settle(w, ctx, rows);
            e.outcome == Crashed(ctx.faults[w.db.ops]) && Unlocked(e.w.db.status) &&
            e.w.db.events == w.db.events && e.w.requests == w.requests
  {
  }

  // ----- The lock is released on every exit after it is taken -----

  /** The lock is gone, unless the last store call of the run (a clearLock) threw. */
  predicate Released(e: Ending, faults: map<nat, string>) {
    Unlocked(e.w.db.status) || (e.w.db.ops > 0 && e.w.db.ops - 1 in faults)
  }

  lemma AbortReleases(w: World, ctx: Ctx, message: string)
    ensures Released(Abort(w, ctx, message), ctx.faults)
  {
  }

  lemma SkipReleases(w: World, ctx: Ctx, e: Event)
    ensures Skip(w, ctx, e).Exit? ==> Released(Skip(w, ctx, e).e, ctx.faults)
  {
    var d := Do(w, ctx, AddEvent(e));
    if d.err.Some? {
      AbortReleases(d.w, ctx, d.err.value);
    }
  }

  lemma AfterChargeReleases(w: World, ctx: Ctx, uid: string, amountCents: int, out: ChargeOutcome)
    ensures AfterCharge(w, ctx, uid, amountCents, out).Exit? ==> Released(AfterCharge(w, ctx, uid, amountCents, out).e, ctx.faults)
  {
    match out
    case Thrown(m) =>
      SkipReleases(w, ctx, FailEvent(ctx, uid, amountCents, ChargeErrorText(m)));
    case Intent(id, status) =>
      if status != "succeeded" {
        var d := Do(w, ctx, AddEvent(StatusFailEvent(ctx, uid, amountCents, id, status)));
        if d.err.Some? {
          SkipReleases(d.w, ctx, FailEvent(ctx, uid, amountCents, ChargeErrorText(d.err.value)));
        }
      } else {
        var d := Do3(w, ctx, SetCrown(PublishNightlyWin(uid, amountCents, id, ctx.dateKey, ctx.now)),
                     AddEvent(WinEvent(ctx, uid, amountCents, id)), SetCrown(ClearLock));
        if d.err.Some? {
          SkipReleases(d.w, ctx, FailEvent(ctx, uid, amountCents, ChargeErrorText(d.err.value)));
        }
      }
  }

  lemma TurnReleases(w: World, ctx: Ctx, c: Candidate)
    ensures TryCandidate(w, ctx, c).Exit? ==> Released(TryCandidate(w, ctx, c).e, ctx.faults)
  {
    var amount := AmountCentsFromUser(c.u);
    if !AmountValid(amount) {
      SkipReleases(w, ctx, FailEvent(ctx, c.uid, amount.GetOr(0), InvalidAmountError));
    } else if c.u.stripeCustomerId == "" || PaymentMethodFromUser(c.u).None? {
      SkipReleases(w, ctx, FailEvent(ctx, c.uid, amount.value, MissingPaymentError));
    } else {
      var req := NightlyRequest(ctx.dateKey, c);
      AfterChargeReleases(w.(requests := w.requests + [req]), ctx, c.uid, amount.value, ctx.respond(req));
    }
  }

  lemma {:induction false} ChargeLoopReleases(w: World, ctx: Ctx, ranked: seq<Candidate>, i: nat)
    requires i <= |ranked|
    ensures Released(ChargeLoop(w, ctx, ranked, i), ctx.faults)
    decreases |ranked| - i
  {
    if i < |ranked| {
      TurnReleases(w, ctx, ranked[i]);
      match TryCandidate(w, ctx, ranked[i])
      case Exit(e) =>
      case Next(w') => ChargeLoopReleases(w', ctx, ranked, i + 1);
    }
  }

  /**
   * Every exit after the guard (no candidates, no active candidates, a win,
   * all failed, an unexpected error) clears the lock; only a clearLock that
   * itself throws leaves it behind.
   */
  lemma LockReleasedOnEveryExit(w: World, ctx: Ctx, rows: seq<Candidate>)
    ensures var e := Settle(w, ctx, rows);
            e.outcome != AlreadySettled && e.outcome != AlreadySettling ==> Released(e, ctx.faults)
  {
    var d := Do(w, ctx, LockTransaction(ctx.dateKey, ctx.now));
    if d.err.None? && LockGuard(w.db.status, ctx.dateKey, ctx.now) == Acquired {
      var q := Do(d.w, ctx, QueryBidders);
      if q.err.None? && rows != [] && ActiveOnly(rows) != [] {
        ChargeLoopReleases(q.w, ctx, Rank(ActiveOnly(rows)), 0);
      }
    }
  }

  // ----- The crown changes only after a succeeded charge -----

  /** Since w0, the crown fields are unchanged or some charge requested since then succeeded. */
  ghost predicate PaidSince(w0: World, w: World, respond: ChargeRequest -> ChargeOutcome) {
    && w0.requests <= w.requests
    && (|| CrownOf(w.db.status) == CrownOf(w0.db.status)
        || exists k :: |w0.requests| <= k < |w.requests| && Succeeded(respond(w.requests[k])))
  }

  /** The world a turn leaves, whether the run goes on or not. */
  function TurnWorld(t: Turn): World {
    if t.Next? then t.w else t.e.w
  }

  lemma TurnRequests(w: World, ctx: Ctx, c: Candidate)
    ensures TurnWorld(TryCandidate(w, ctx, c)).requests ==
            w.requests + (if Chargeable(c) then [NightlyRequest(ctx.dateKey, c)] else [])
  {
  }

  lemma TurnPaid(w0: World, w: World, ctx: Ctx, c: Candidate)
    requires PaidSince(w0, w, ctx.respond)
    ensures PaidSince(w0, TurnWorld(TryCandidate(w, ctx, c)), ctx.respond)
  {
    var wEnd := TurnWorld(TryCandidate(w, ctx, c));
    TurnRequests(w, ctx, c);
    if exists k :: |w0.requests| <= k < |w.requests| && Succeeded(ctx.respond(w.requests[k])) {
      var k :| |w0.requests| <= k < |w.requests| && Succeeded(ctx.respond(w.requests[k]));
      assert wEnd.requests[k] == w.requests[k];
    }
    if Chargeable(c) && Succeeded(ctx.respond(NightlyRequest(ctx.dateKey, c))) {
      assert wEnd.requests[|w.requests|] == NightlyRequest(ctx.dateKey, c);
    }
  }

  lemma {:induction false} ChargeLoopPaid(w0: World, w: World, ctx: Ctx, ranked: seq<Candidate>, i: nat)
    requires i <= |ranked| && PaidSince(w0, w, ctx.respond)
    ensures PaidSince(w0, ChargeLoop(w, ctx, ranked, i).w, ctx.respond)
    decreases |ranked| - i
  {
    if i < |ranked| {
      TurnPaid(w0, w, ctx, ranked[i]);
      match TryCandidate(w, ctx, ranked[i])
      case Exit(e) =>
      case Next(w') => ChargeLoopPaid(w0, w', ctx, ranked, i + 1);
    }
  }

  /**
   * Whatever the store and the gateway do, a run that changes the crown fields
   * requested a charge that came back "succeeded".
   */
  lemma CrownChangesOnlyAfterSucceededCharge(w: World, ctx: Ctx, rows: seq<Candidate>)
    ensures var e := Settle(w, ctx, rows);
            CrownOf(e.w.db.status) != CrownOf(w.db.status) ==>
              exists k :: |w.requests| <= k < |e.w.requests| && Succeeded(ctx.respond(e.w.requests[k]))
  {
    var d := Do(w, ctx, LockTransaction(ctx.dateKey, ctx.now));
    if d.err.None? && LockGuard(w.db.status, ctx.dateKey, ctx.now) == Acquired {
      assert Settle(w, ctx, rows) == AfterLock(d.w, ctx, rows);
      assert PaidSince(w, d.w, ctx.respond);
      AfterLockPaid(w, d.w, ctx, rows);
    }
  }

  lemma AfterLockPaid(w0: World, w: World, ctx: Ctx, rows: seq<Candidate>)
    requires PaidSince(w0, w, ctx.respond)
    ensures PaidSince(w0, AfterLock(w, ctx, rows).w, ctx.respond)
  {
    var q := Do(w, ctx, QueryBidders);
    assert PaidSince(w0, q.w, ctx.respond);
    if q.err.Some? {
      AbortKeepsCrown(q.w, ctx, q.err.value);
    } else if rows == [] {
      NoWinnerExitKeepsCrown(q.w, ctx, NoOffersError, "no_candidates", NoCandidates);
    } else if ActiveOnly(rows) == [] {
      NoWinnerExitKeepsCrown(q.w, ctx, NoActiveError, "no_active_candidates", NoActiveCandidates);
    } else {
      assert AfterLock(w, ctx, rows) == ChargeLoop(q.w, ctx, Rank(ActiveOnly(rows)), 0);
      ChargeLoopPaid(w0, q.w, ctx, Rank(ActiveOnly(rows)), 0);
    }
  }

  /** The outer catch touches only the lock fields and charges nothing. */
  lemma AbortKeepsCrown(w: World, ctx: Ctx, message: string)
    ensures CrownOf(Abort(w, ctx, message).w.db.status) == CrownOf(w.db.status)
    ensures Abort(w, ctx, message).w.requests == w.requests
  {
  }

  /** An exit before the loop writes no crown field and charges nothing. */
  lemma NoWinnerExitKeepsCrown(w: World, ctx: Ctx, error: string, result: string, outcome: Outcome)
    ensures CrownOf(NoWinnerExit(w, ctx, error, result, outcome).w.db.status) == CrownOf(w.db.status)
    ensures NoWinnerExit(w, ctx, error, result, outcome).w.requests == w.requests
  {
    var a, b := AddEvent(FailEvent(ctx, "none", 0, error)), SetCrown(RecordAttempt(ctx.dateKey, result));
    var d := Do3(w, ctx, a, b, SetCrown(ClearLock));
    if d.err.Some? {
      AbortKeepsCrown(d.w, ctx, d.err.value);
    }
  }

  // ----- A win -----

  /** What a Won ending guarantees: the last charge was the winner's and succeeded, and the day is settled. */
  ghost predicate WonAfterPaying(e: Ending, ctx: Ctx) {
    e.outcome.Won? ==>
      && e.w.requests != []
      && e.w.db.events != []
      && var req := e.w.requests[|e.w.requests| - 1];
      && var uid, amount, id := e.outcome.uid, e.outcome.amountCents, e.outcome.paymentIntentId;
      && req.uid == uid && req.amountCents == amount && amount >= MinChargeCents
      && req.idempotencyKey == NightlyKey(ctx.dateKey, uid, amount)
      && ctx.respond(req) == Intent(id, "succeeded")
      && CrownOf(e.w.db.status) ==
           Crown(Some(uid), Some(amount), Some(id), Some(ctx.dateKey), Some(ctx.now), Some("nightly"), Some(ctx.dateKey))
      && Unlocked(e.w.db.status)
      && e.w.db.events[|e.w.db.events| - 1] == WinEvent(ctx, uid, amount, id)
  }

  lemma TurnWon(w: World, ctx: Ctx, c: Candidate)
    ensures TryCandidate(w, ctx, c).Exit? ==> WonAfterPaying(TryCandidate(w, ctx, c).e, ctx)
  {
  }

  lemma {:induction false} ChargeLoopWon(w: World, ctx: Ctx, ranked: seq<Candidate>, i: nat)
    requires i <= |ranked|
    ensures WonAfterPaying(ChargeLoop(w, ctx, ranked, i), ctx)
    decreases |ranked| - i
  {
    if i < |ranked| {
      TurnWon(w, ctx, ranked[i]);
      match TryCandidate(w, ctx, ranked[i])
      case Exit(e) =>
      case Next(w') => ChargeLoopWon(w', ctx, ranked, i + 1);
    }
  }

  /** A run reports a winner only after that winner's charge succeeded and the crown and lastSettledForDate were written. */
  lemma WinnerWasCharged(w: World, ctx: Ctx, rows: seq<Candidate>)
    ensures WonAfterPaying(Settle(w, ctx, rows), ctx)
  {
    var d := Do(w, ctx, LockTransaction(ctx.dateKey, ctx.now));
    if d.err.None? && LockGuard(w.db.status, ctx.dateKey, ctx.now) == Acquired {
      var q := Do(d.w, ctx, QueryBidders);
      if q.err.None? && rows != [] && ActiveOnly(rows) != [] {
        ChargeLoopWon(q.w, ctx, Rank(ActiveOnly(rows)), 0);
      }
    }
  }

  /** After a win, any later run for the same day stops at the guard and writes nothing. */
  lemma RerunAfterWinDoesNothing(w: World, ctx: Ctx, rows: seq<Candidate>, again: Ctx, rows2: seq<Candidate>)
    requires Settle(w, ctx, rows).outcome.Won?
    requires again.dateKey == ctx.dateKey
    requires Settle(w, ctx, rows).w.db.ops !in again.faults
    ensures var e := Settle(w, ctx, rows);
            var e2 := Settle(e.w, again, rows2);
            e2.outcome == AlreadySettled && e2.w.db.status == e.w.db.status &&
            e2.w.db.events == e.w.db.events && e2.w.requests == e.w.requests
  {
    WinnerWasCharged(w, ctx, rows);
    var e := Settle(w, ctx, rows);
    assert e.w.db.status.lastSettledForDate == CrownOf(e.w.db.status).lastSettledForDate == Some(ctx.dateKey);
    GuardStopsWithoutWrites(e.w, again, rows2);
  }

  // ----- Charges follow the ranking -----

  /** The charges the chargeable candidates of cs get, in order. */
  function RequestsOf(dateKey: string, cs: seq<Candidate>): (r: seq<ChargeRequest>)
    ensures |r| <= |cs|
    ensures forall q :: q in r ==> exists c :: c in cs && Chargeable(c) && q == NightlyRequest(dateKey, c)
    decreases |cs|
  {
    if cs == [] then []
    else
      var rest := RequestsOf(dateKey, cs[1..]);
      assert forall c :: c in cs[1..] ==> c in cs;
      (if Chargeable(cs[0]) then [NightlyRequest(dateKey, cs[0])] else []) + rest
  }

  lemma {:induction false} RequestsOfAppend(dateKey: string, a: seq<Candidate>, b: seq<Candidate>)
    ensures RequestsOf(dateKey, a + b) == RequestsOf(dateKey, a) + RequestsOf(dateKey, b)
    decreases |a|
  {
    if a != [] {
      assert (a + b)[0] == a[0] && (a + b)[1..] == a[1..] + b;
      RequestsOfAppend(dateKey, a[1..], b);
    } else {
      assert a + b == b;
    }
  }

  lemma RequestsOfOne(dateKey: string, c: Candidate)
    ensures RequestsOf(dateKey, [c]) == (if Chargeable(c) then [NightlyRequest(dateKey, c)] else [])
  {
    assert [c][1..] == [];
  }

  /** The requests grew from before to after by the charges of ranked[i..k], for some k. */
  ghost predicate ChargedPrefix(before: seq<ChargeRequest>, after: seq<ChargeRequest>, dateKey: string,
                                ranked: seq<Candidate>, i: nat)
    requires i <= |ranked|
  {
    exists k :: i <= k <= |ranked| && after == before + RequestsOf(dateKey, ranked[i..k])
  }

  lemma ChargedPrefixOne(before: seq<ChargeRequest>, after: seq<ChargeRequest>, dateKey: string,
                         ranked: seq<Candidate>, i: nat)
    requires i < |ranked| && after == before + RequestsOf(dateKey, [ranked[i]])
    ensures ChargedPrefix(before, after, dateKey, ranked, i)
  {
    assert ranked[i..i + 1] == [ranked[i]];
  }

  lemma ChargedPrefixCons(before: seq<ChargeRequest>, mid: seq<ChargeRequest>, after: seq<ChargeRequest>,
                          dateKey: string, ranked: seq<Candidate>, i: nat)
    requires i < |ranked| && mid == before + RequestsOf(dateKey, [ranked[i]])
    requires ChargedPrefix(mid, after, dateKey, ranked, i + 1)
    ensures ChargedPrefix(before, after, dateKey, ranked, i)
  {
    var k :| i + 1 <= k <= |ranked| && after == mid + RequestsOf(dateKey, ranked[i + 1..k]);
    assert ranked[i..k] == [ranked[i]] + ranked[i + 1..k];
    RequestsOfAppend(dateKey, [ranked[i]], ranked[i + 1..k]);
  }

  lemma {:induction false} ChargeLoopRequests(w: World, ctx: Ctx, ranked: seq<Candidate>, i: nat)
    requires i <= |ranked|
    ensures ChargedPrefix(w.requests, ChargeLoop(w, ctx, ranked, i).w.requests, ctx.dateKey, ranked, i)
    decreases |ranked| - i
  {
    if i == |ranked| {
      assert ranked[i..i] == [];
      assert ChargeLoop(w, ctx, ranked, i).w.requests == w.requests + RequestsOf(ctx.dateKey, ranked[i..i]);
    } else {
      TurnRequests(w, ctx, ranked[i]);
      RequestsOfOne(ctx.dateKey, ranked[i]);
      var mid := TurnWorld(TryCandidate(w, ctx, ranked[i])).requests;
      match TryCandidate(w, ctx, ranked[i])
      case Exit(e) =>
        ChargedPrefixOne(w.requests, mid, ctx.dateKey, ranked, i);
      case Next(w') =>
        ChargeLoopRequests(w', ctx, ranked, i + 1);
        ChargedPrefixCons(w.requests, mid, ChargeLoop(w', ctx, ranked, i + 1).w.requests, ctx.dateKey, ranked, i);
    }
  }

  /**
   * Whatever the store and the gateway do, the run's charges are those of the
   * chargeable candidates of a prefix of the ranking, in rank order, one each:
   * a candidate with an invalid amount or no payment method never reaches the
   * gateway, and no candidate is charged out of turn.
   */
  lemma ChargesFollowRanking(w: World, ctx: Ctx, rows: seq<Candidate>)
    ensures ChargedPrefix(w.requests, Settle(w, ctx, rows).w.requests, ctx.dateKey, Rank(ActiveOnly(rows)), 0)
  {
    var ranked := Rank(ActiveOnly(rows));
    var d := Do(w, ctx, LockTransaction(ctx.dateKey, ctx.now));
    var q := Do(d.w, ctx, QueryBidders);
    if d.err.None? && LockGuard(w.db.status, ctx.dateKey, ctx.now) == Acquired &&
       q.err.None? && rows != [] && ActiveOnly(rows) != [] {
      ChargeLoopRequests(q.w, ctx, ranked, 0);
    } else {
      assert ranked[0..0] == [];
      assert Settle(w, ctx, rows).w.requests == w.requests + RequestsOf(ctx.dateKey, ranked[0..0]);
    }
  }

  /** Every charge of a run goes to an active, chargeable row of the query, under its nightly key. */
  lemma ChargedRowsAreActive(w: World, ctx: Ctx, rows: seq<Candidate>, n: nat)
    requires |w.requests| <= n < |Settle(w, ctx, rows).w.requests|
    ensures exists c :: c in rows && c.u.isActive && Chargeable(c) &&
              Settle(w, ctx, rows).w.requests[n] == NightlyRequest(ctx.dateKey, c)
  {
    var ranked := Rank(ActiveOnly(rows));
    var reqs := Settle(w, ctx, rows).w.requests;
    ChargesFollowRanking(w, ctx, rows);
    var k :| 0 <= k <= |ranked| && reqs == w.requests + RequestsOf(ctx.dateKey, ranked[0..k]);
    var j := ChargedFromPrefix(ctx.dateKey, ranked, w.requests, reqs, k, n);
    RankedAreActive(rows, j);
  }

  /** The n-th charge past the prefix goes to a ranked candidate, which is chargeable. */
  lemma ChargedFromPrefix(dateKey: string, ranked: seq<Candidate>, base: seq<ChargeRequest>, reqs: seq<ChargeRequest>, k: nat, n: nat)
    returns (j: nat)
    requires k <= |ranked| && reqs == base + RequestsOf(dateKey, ranked[0..k])
    requires |base| <= n < |reqs|
    ensures j < |ranked| && Chargeable(ranked[j]) && reqs[n] == NightlyRequest(dateKey, ranked[j])
  {
    var tail := RequestsOf(dateKey, ranked[0..k]);
    assert reqs[n] == tail[n - |base|];
    assert reqs[n] in tail;
    var c :| c in ranked[0..k] && Chargeable(c) && reqs[n] == NightlyRequest(dateKey, c);
    j :| 0 <= j < k && ranked[0..k][j] == c;
  }

  // ----- The whole run when the store never throws -----

  /** The candidate wins: it reaches the gateway and its charge succeeds. */
  predicate Wins(ctx: Ctx, c: Candidate) {
    Chargeable(c) && Succeeded(ctx.respond(NightlyRequest(ctx.dateKey, c)))
  }

  /** The NIGHTLY_FAIL event a candidate that does not win leaves when the store never throws. */
  function LossEvent(ctx: Ctx, c: Candidate): (e: Event)
    ensures e.kind == NightlyFail && e.uid == c.uid && e.dateKey == Some(ctx.dateKey)
    ensures !Chargeable(c) ==> e.paymentIntentId.None?
  {
    var amount := AmountCentsFromUser(c.u);
    if !AmountValid(amount) then FailEvent(ctx, c.uid, amount.GetOr(0), InvalidAmountError)
    else if c.u.stripeCustomerId == "" || PaymentMethodFromUser(c.u).None? then
      FailEvent(ctx, c.uid, amount.value, MissingPaymentError)
    else
      match ctx.respond(NightlyRequest(ctx.dateKey, c))
      case Thrown(m) => FailEvent(ctx, c.uid, amount.value, ChargeErrorText(m))
      case Intent(id, status) => StatusFailEvent(ctx, c.uid, amount.value, id, status)
  }

  function LossEvents(ctx: Ctx, cs: seq<Candidate>): (r: seq<Event>)
    ensures |r| == |cs|
    ensures forall ev :: ev in r ==> ev.kind == NightlyFail
    decreases |cs|
  {
    if cs == [] then [] else [LossEvent(ctx, cs[0])] + LossEvents(ctx, cs[1..])
  }

  /** The first candidate from i on that wins, or |ranked| when none does. */
  function FirstWin(ctx: Ctx, ranked: seq<Candidate>, i: nat): (j: nat)
    requires i <= |ranked|
    ensures i <= j <= |ranked|
    ensures forall m :: i <= m < j ==> !Wins(ctx, ranked[m])
    ensures j < |ranked| ==> Wins(ctx, ranked[j])
    decreases |ranked| - i
  {
    if i == |ranked| || Wins(ctx, ranked[i]) then i else FirstWin(ctx, ranked, i + 1)
  }

  /**
   * The run from the i-th ranked candidate on, when nothing throws: the
   * candidates before the first winner each leave their NIGHTLY_FAIL event,
   * only the chargeable ones among them and the winner are charged, the winner
   * is published, one NIGHTLY_WIN follows and the lock is cleared; with no
   * winner, the attempt is recorded as all_failed, the summary event follows
   * and the lock is cleared.
   */
  ghost predicate ChargedInOrder(w: World, ctx: Ctx, ranked: seq<Candidate>, i: nat, e: Ending)
    requires i <= |ranked|
  {
    var j := FirstWin(ctx, ranked, i);
    && e.w.db.users == w.db.users
    && if j < |ranked| then WonAt(w, ctx, ranked, i, j, e) else FailedFrom(w, ctx, ranked, i, e)
  }

  /** The ending when ranked[j] is the first winner from i on. */
  ghost predicate WonAt(w: World, ctx: Ctx, ranked: seq<Candidate>, i: nat, j: nat, e: Ending)
    requires i <= j < |ranked| && Wins(ctx, ranked[j])
  {
    var c := ranked[j];
    var req := NightlyRequest(ctx.dateKey, c);
    var id := ctx.respond(req).id;
    && e.outcome == Won(c.uid, req.amountCents, id)
    && e.w.requests == w.requests + RequestsOf(ctx.dateKey, ranked[i..j + 1])
    && e.w.db.events == w.db.events + LossEvents(ctx, ranked[i..j]) + [WinEvent(ctx, c.uid, req.amountCents, id)]
    && e.w.db.status ==
         ApplyMerge(ApplyMerge(w.db.status, PublishNightlyWin(c.uid, req.amountCents, id, ctx.dateKey, ctx.now)), ClearLock)
  }

  /** The ending when no candidate from i on wins. */
  ghost predicate FailedFrom(w: World, ctx: Ctx, ranked: seq<Candidate>, i: nat, e: Ending)
    requires i <= |ranked|
  {
    && e.outcome == AllFailed
    && e.w.requests == w.requests + RequestsOf(ctx.dateKey, ranked[i..])
    && e.w.db.events == w.db.events + LossEvents(ctx, ranked[i..]) + [FailEvent(ctx, "all", 0, AllFailedError)]
    && e.w.db.status == ApplyMerge(ApplyMerge(w.db.status, RecordAttempt(ctx.dateKey, "all_failed")), ClearLock)
  }

  /** One turn when nothing throws: a loser leaves its event (and its charge, if it had one) and the loop goes on. */
  lemma TurnWithoutFaults(w: World, ctx: Ctx, c: Candidate)
    requires ctx.faults == map[]
    ensures var t := TryCandidate(w, ctx, c);
            if Wins(ctx, c) then
              var req := NightlyRequest(ctx.dateKey, c);
              var id := ctx.respond(req).id;
              && t.Exit?
              && t.e.outcome == Won(c.uid, req.amountCents, id)
              && t.e.w.requests == w.requests + [req]
              && t.e.w.db.events == w.db.events + [WinEvent(ctx, c.uid, req.amountCents, id)]
              && t.e.w.db.users == w.db.users
              && t.e.w.db.status ==
                   ApplyMerge(ApplyMerge(w.db.status, PublishNightlyWin(c.uid, req.amountCents, id, ctx.dateKey, ctx.now)), ClearLock)
            else
              && t.Next?
              && t.w.requests == w.requests + RequestsOf(ctx.dateKey, [c])
              && t.w.db.events == w.db.events + [LossEvent(ctx, c)]
              && t.w.db.status == w.db.status
              && t.w.db.users == w.db.users
  {
    RequestsOfOne(ctx.dateKey, c);
  }

  /** The loop's end when nothing throws: the attempt record, the summary event, clearLock. */
  lemma AllFailedExitWithoutFaults(w: World, ctx: Ctx, ranked: seq<Candidate>)
    requires ctx.faults == map[]
    ensures ChargedInOrder(w, ctx, ranked, |ranked|, AllFailedExit(w, ctx))
  {
    assert ranked[|ranked|..] == [];
    assert LossEvents(ctx, ranked[|ranked|..]) == [] && RequestsOf(ctx.dateKey, ranked[|ranked|..]) == [];
  }

  lemma ChargedInOrderWin(w: World, ctx: Ctx, ranked: seq<Candidate>, i: nat, e: Ending)
    requires i < |ranked| && Wins(ctx, ranked[i])
    requires var c := ranked[i];
             var req := NightlyRequest(ctx.dateKey, c);
             var id := ctx.respond(req).id;
             && e.outcome == Won(c.uid, req.amountCents, id)
             && e.w.requests == w.requests + [req]
             && e.w.db.events == w.db.events + [WinEvent(ctx, c.uid, req.amountCents, id)]
             && e.w.db.users == w.db.users
             && e.w.db.status ==
                  ApplyMerge(ApplyMerge(w.db.status, PublishNightlyWin(c.uid, req.amountCents, id, ctx.dateKey, ctx.now)), ClearLock)
    ensures ChargedInOrder(w, ctx, ranked, i, e)
  {
    assert ranked[i..i + 1] == [ranked[i]] && ranked[i..i] == [];
    RequestsOfOne(ctx.dateKey, ranked[i]);
  }

  lemma ChargedInOrderLoss(w: World, w': World, ctx: Ctx, ranked: seq<Candidate>, i: nat, e: Ending)
    requires i < |ranked| && !Wins(ctx, ranked[i])
    requires w'.requests == w.requests + RequestsOf(ctx.dateKey, [ranked[i]])
    requires w'.db.events == w.db.events + [LossEvent(ctx, ranked[i])]
    requires w'.db.status == w.db.status && w'.db.users == w.db.users
    requires ChargedInOrder(w', ctx, ranked, i + 1, e)
    ensures ChargedInOrder(w, ctx, ranked, i, e)
  {
    var j := FirstWin(ctx, ranked, i + 1);
    assert FirstWin(ctx, ranked, i) == j;
    if j < |ranked| {
      WonAtLoss(w, w', ctx, ranked, i, j, e);
    } else {
      FailedFromLoss(w, w', ctx, ranked, i, e);
    }
  }

  lemma WonAtLoss(w: World, w': World, ctx: Ctx, ranked: seq<Candidate>, i: nat, j: nat, e: Ending)
    requires i < j < |ranked| && Wins(ctx, ranked[j])
    requires w'.requests == w.requests + RequestsOf(ctx.dateKey, [ranked[i]])
    requires w'.db.events == w.db.events + [LossEvent(ctx, ranked[i])]
    requires w'.db.status == w.db.status
    requires WonAt(w', ctx, ranked, i + 1, j, e)
    ensures WonAt(w, ctx, ranked, i, j, e)
  {
    var c := ranked[j];
    var req := NightlyRequest(ctx.dateKey, c);
    var id := ctx.respond(req).id;
    var win := WinEvent(ctx, c.uid, req.amountCents, id);
    RequestsStep(ctx.dateKey, ranked, i, j + 1, w.requests, w'.requests, e.w.requests);
    EventsStep(ctx, ranked, i, j, w.db.events, w'.db.events, e.w.db.events, [win]);
  }

  lemma FailedFromLoss(w: World, w': World, ctx: Ctx, ranked: seq<Candidate>, i: nat, e: Ending)
    requires i < |ranked|
    requires w'.requests == w.requests + RequestsOf(ctx.dateKey, [ranked[i]])
    requires w'.db.events == w.db.events + [LossEvent(ctx, ranked[i])]
    requires w'.db.status == w.db.status
    requires FailedFrom(w', ctx, ranked, i + 1, e)
    ensures FailedFrom(w, ctx, ranked, i, e)
  {
    assert ranked[i..] == ranked[i..|ranked|] && ranked[i + 1..] == ranked[i + 1..|ranked|];
    RequestsStep(ctx.dateKey, ranked, i, |ranked|, w.requests, w'.requests, e.w.requests);
    EventsStep(ctx, ranked, i, |ranked|, w.db.events, w'.db.events, e.w.db.events, [FailEvent(ctx, "all", 0, AllFailedError)]);
  }

  /** One loser's charge in front of the charges of the slice after it. */
  lemma RequestsStep(dateKey: string, ranked: seq<Candidate>, i: nat, m: nat, base: seq<ChargeRequest>, mid: seq<ChargeRequest>, final: seq<ChargeRequest>)
    requires i < m <= |ranked|
    requires mid == base + RequestsOf(dateKey, [ranked[i]])
    requires final == mid + RequestsOf(dateKey, ranked[i + 1..m])
    ensures final == base + RequestsOf(dateKey, ranked[i..m])
  {
    RequestsCons(dateKey, ranked, i, m);
    var one, rest := RequestsOf(dateKey, [ranked[i]]), RequestsOf(dateKey, ranked[i + 1..m]);
    assert base + one + rest == base + (one + rest);
  }

  /** One loser's event in front of the events of the slice after it and the closing event. */
  lemma EventsStep(ctx: Ctx, ranked: seq<Candidate>, i: nat, m: nat, base: seq<Event>, mid: seq<Event>, final: seq<Event>, tail: seq<Event>)
    requires i < m <= |ranked|
    requires mid == base + [LossEvent(ctx, ranked[i])]
    requires final == mid + LossEvents(ctx, ranked[i + 1..m]) + tail
    ensures final == base + LossEvents(ctx, ranked[i..m]) + tail
  {
    LossEventsCons(ctx, ranked, i, m);
    Regroup(base, [LossEvent(ctx, ranked[i])], LossEvents(ctx, ranked[i + 1..m]), LossEvents(ctx, ranked[i..m]), tail);
  }

  lemma Regroup<T>(base: seq<T>, one: seq<T>, more: seq<T>, whole: seq<T>, tail: seq<T>)
    requires whole == one + more
    ensures base + one + more + tail == base + whole + tail
  {
  }

  /** Taking the first candidate off a slice takes its charge off the front. */
  lemma RequestsCons(dateKey: string, ranked: seq<Candidate>, i: nat, m: nat)
    requires i < m <= |ranked|
    ensures RequestsOf(dateKey, ranked[i..m]) == RequestsOf(dateKey, [ranked[i]]) + RequestsOf(dateKey, ranked[i + 1..m])
  {
    assert ranked[i..m] == [ranked[i]] + ranked[i + 1..m];
    RequestsOfAppend(dateKey, [ranked[i]], ranked[i + 1..m]);
  }

  /** Taking the first candidate off a slice takes its event off the front. */
  lemma LossEventsCons(ctx: Ctx, ranked: seq<Candidate>, i: nat, m: nat)
    requires i < m <= |ranked|
    ensures LossEvents(ctx, ranked[i..m]) == [LossEvent(ctx, ranked[i])] + LossEvents(ctx, ranked[i + 1..m])
  {
    assert ranked[i..m][1..] == ranked[i + 1..m];
  }

  lemma {:induction false} ChargeLoopWithoutFaults(w: World, ctx: Ctx, ranked: seq<Candidate>, i: nat)
    requires ctx.faults == map[]
    requires i <= |ranked|
    ensures ChargedInOrder(w, ctx, ranked, i, ChargeLoop(w, ctx, ranked, i))
    decreases |ranked| - i
  {
    if i == |ranked| {
      AllFailedExitWithoutFaults(w, ctx, ranked);
    } else {
      TurnWithoutFaults(w, ctx, ranked[i]);
      match TryCandidate(w, ctx, ranked[i])
      case Exit(e) =>
        ChargedInOrderWin(w, ctx, ranked, i, e);
      case Next(w') =>
        ChargeLoopWithoutFaults(w', ctx, ranked, i + 1);
        ChargedInOrderLoss(w, w', ctx, ranked, i, ChargeLoop(w', ctx, ranked, i + 1));
    }
  }

  /**
   * The run when the store never throws and the lock is free: exactly the
   * ChargedInOrder ending over the ranking of the active rows, starting from
   * the document with the lock taken.
   */
  lemma SettleWithoutFaults(w: World, ctx: Ctx, rows: seq<Candidate>)
    requires ctx.faults == map[]
    requires LockGuard(w.db.status, ctx.dateKey, ctx.now) == Acquired
    requires ActiveOnly(rows) != []
    ensures var locked := World(w.db.(status := ApplyMerge(w.db.status, TakeLock(ctx.now, ctx.dateKey))), w.requests);
            ChargedInOrder(locked, ctx, Rank(ActiveOnly(rows)), 0, Settle(w, ctx, rows))
  {
    var locked := World(w.db.(status := ApplyMerge(w.db.status, TakeLock(ctx.now, ctx.dateKey))), w.requests);
    var q := Do(Do(w, ctx, LockTransaction(ctx.dateKey, ctx.now)).w, ctx, QueryBidders);
    assert q.w == locked.(db := locked.db.(ops := w.db.ops + 2));
    var ranked := Rank(ActiveOnly(rows));
    ChargeLoopWithoutFaults(q.w, ctx, ranked, 0);
  }

  /**
   * When the store never throws and every candidate fails, the crown fields
   * and lastSettledForDate are untouched and the lock is free, so a later run
   * of the same day takes the lock and tries again.
   */
  lemma AllFailedAllowsRerun(w: World, ctx: Ctx, rows: seq<Candidate>, later: int)
    requires ctx.faults == map[]
    requires LockGuard(w.db.status, ctx.dateKey, ctx.now) == Acquired
    requires Settle(w, ctx, rows).outcome == AllFailed
    ensures var e := Settle(w, ctx, rows);
            CrownOf(e.w.db.status) == CrownOf(w.db.status) &&
            e.w.db.status.lastAttemptForDate == Some(ctx.dateKey) &&
            e.w.db.status.lastAttemptResult == Some("all_failed") &&
            LockGuard(e.w.db.status, ctx.dateKey, later) == Acquired
  {
    var e := Settle(w, ctx, rows);
    if ActiveOnly(rows) != [] {
      SettleWithoutFaults(w, ctx, rows);
      var ranked := Rank(ActiveOnly(rows));
      var j := FirstWin(ctx, ranked, 0);
      assert j == |ranked|;
    }
  }

  /** With no rows, or no active rows, and no store errors: the matching NIGHTLY_FAIL, the attempt record, the lock cleared, the crown untouched. */
  lemma NoOfferExits(w: World, ctx: Ctx, rows: seq<Candidate>)
    requires ctx.faults == map[]
    requires LockGuard(w.db.status, ctx.dateKey, ctx.now) == Acquired
    requires ActiveOnly(rows) == []
    ensures var e := Settle(w, ctx, rows);
            && e.outcome == (if rows == [] then NoCandidates else NoActiveCandidates)
            && e.w.requests == w.requests
            && e.w.db.events == w.db.events + [FailEvent(ctx, "none", 0, if rows == [] then NoOffersError else NoActiveError)]
            && CrownOf(e.w.db.status) == CrownOf(w.db.status)
            && Unlocked(e.w.db.status)
            && e.w.db.status.lastAttemptForDate == Some(ctx.dateKey)
            && e.w.db.status.lastAttemptResult == Some(if rows == [] then "no_candidates" else "no_active_candidates")
  {
  }

  // ----- A store error after a succeeded charge -----

  /**
   * As written, the charge loop's own catch also covers the crown merge, the
   * NIGHTLY_WIN append and the clearLock that follow a succeeded charge. If
   * the NIGHTLY_WIN append throws, the loop records a NIGHTLY_FAIL and charges
   * the next candidate: two charges succeed in one run and the crown goes to
   * the second candidate.
   */
  lemma StoreErrorAfterPaidChargeChargesNext(w: World, ctx: Ctx, a: Candidate, b: Candidate)
    requires Wins(ctx, a) && Wins(ctx, b)
    requires w.db.ops + 1 in ctx.faults
    requires forall n :: n in ctx.faults ==> n == w.db.ops + 1
    ensures var e := ChargeLoop(w, ctx, [a, b], 0);
            var ra, rb := NightlyRequest(ctx.dateKey, a), NightlyRequest(ctx.dateKey, b);
            && e.w.requests == w.requests + [ra, rb]
            && Succeeded(ctx.respond(ra)) && Succeeded(ctx.respond(rb))
            && e.outcome == Won(b.uid, rb.amountCents, ctx.respond(rb).id)
            && e.w.db.status.activeUid == Some(b.uid)
  {
    PaidButWinEventFailed(w, ctx, a);
    var w' := TryCandidate(w, ctx, a).w;
    assert [a, b][0] == a && [a, b][1] == b;
    assert ChargeLoop(w, ctx, [a, b], 0) == ChargeLoop(w', ctx, [a, b], 1);
    PaidAndPublished(w', ctx, b);
    assert ChargeLoop(w', ctx, [a, b], 1) == TryCandidate(w', ctx, b).e;
    assert w.requests + [NightlyRequest(ctx.dateKey, a)] + [NightlyRequest(ctx.dateKey, b)] ==
           w.requests + [NightlyRequest(ctx.dateKey, a), NightlyRequest(ctx.dateKey, b)];
  }

  /** A paid charge whose NIGHTLY_WIN append throws: the catch logs a failure and the loop goes on. */
  lemma PaidButWinEventFailed(w: World, ctx: Ctx, c: Candidate)
    requires Wins(ctx, c)
    requires w.db.ops !in ctx.faults && w.db.ops + 1 in ctx.faults && w.db.ops + 2 !in ctx.faults
    ensures var t := TryCandidate(w, ctx, c);
            t.Next? && t.w.requests == w.requests + [NightlyRequest(ctx.dateKey, c)] && t.w.db.ops == w.db.ops + 3
  {
  }

  /** A paid charge whose three writes all go through ends the run with the win. */
  lemma PaidAndPublished(w: World, ctx: Ctx, c: Candidate)
    requires Wins(ctx, c)
    requires w.db.ops !in ctx.faults && w.db.ops + 1 !in ctx.faults && w.db.ops + 2 !in ctx.faults
    ensures var t := TryCandidate(w, ctx, c);
            var req := NightlyRequest(ctx.dateKey, c);
            && t.Exit? && t.e.w.requests == w.requests + [req]
            && t.e.outcome == Won(c.uid, req.amountCents, ctx.respond(req).id)
            && t.e.w.db.status.activeUid == Some(c.uid)
  {
  }
}
