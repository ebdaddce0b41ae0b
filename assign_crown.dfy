/**
 * POST /api/admin/assign-crown-now: an admin charges one named user at once
 * and, only if that charge succeeds, makes them the crown holder. The run is
 * a function of the world before it (AssignCrown) and the route handler a
 * method proved to do exactly that.
 */
module AssignCrown {
  import opened Wrappers
  import opened Bidders
  import opened Keys
  import opened Store
  import opened Payments
  import opened Settlement
  import opened SettlementRun
  import opened AdminAuth

  /**
   * The JSON body fields the route reads. A string field is Some when it holds
   * a string and None when absent or null; amountCents is Some when it holds a
   * finite whole number. A body that fails to parse reads as all None.
   */
  datatype AssignBody = AssignBody(targetUid: Option<string>, uid: Option<string>, amountCents: Option<int>)

  datatype AssignReply =
    | Assigned(uid: string, amountCents: int, paymentIntentId: string)  // { ok: true, uid, amountCents, paymentIntentId }
    | Declined(stripeStatus: string, paymentIntentId: string)           // { error: "Charge did not succeed", ... }
    | Error(error: string)

  datatype Reply = Reply(status: int, body: AssignReply)

  /** The world the route leaves and its reply. */
  datatype Assignment = Assignment(w: World, reply: Reply)

  const MissingTargetError: string := "Missing targetUid"
  const UserNotFoundError: string := "User not found"
  const MissingPaymentText: string :=
    "User missing stripeCustomerId or default payment method id (expected stripeDefaultPaymentMethodId or defaultPaymentMethodId)."
  const InvalidAmountText: string := "Invalid or missing crown offer amount (need >= $0.50)"

  /** The catch: status 500 with the error's message, or "Server error" when it has none. */
  function ServerError(w: World, message: string): (a: Assignment)
    ensures a.w == w && a.reply.status == 500 && a.reply.body.Error? && a.reply.body.error != ""
  {
    Assignment(w, Reply(500, Error(if message == "" then "Server error" else message)))
  }

  /** `body.targetUid ?? body.uid`: uid is read only when targetUid is absent or null. */
  function TargetOf(body: AssignBody): Option<string> {
    if body.targetUid.Some? then body.targetUid else body.uid
  }

  /** The position of the first field holding a non-zero number, or |fields|: a chain of `(number && x) || ... || null`. */
  function FirstNonZeroAt(fields: seq<Option<int>>): (i: nat)
    ensures i <= |fields|
    ensures forall j :: 0 <= j < i ==> fields[j].GetOr(0) == 0
    ensures i < |fields| ==> fields[i].GetOr(0) != 0
    decreases |fields|
  {
    if fields == [] || fields[0].GetOr(0) != 0 then 0 else 1 + FirstNonZeroAt(fields[1..])
  }

  function CentsFields(u: UserDoc): seq<Option<int>> {
    [u.crownOfferCents, u.crownPriceCents, u.amountCents]
  }

  function DollarFields(u: UserDoc): seq<Option<int>> {
    [u.crownPrice, u.amount]
  }

  /**
   * resolveAmountCents: the body's amount when it is a number, else the first
   * non-zero cents field (offer, price, amount), else the first non-zero
   * dollar field (price, amount) in cents, else nothing.
   */
  function ResolveAmountCents(u: UserDoc, bodyAmount: Option<int>): (r: Option<int>)
    ensures bodyAmount.Some? ==> r == bodyAmount
    ensures bodyAmount.None? && r.Some? ==> r.value != 0
    ensures bodyAmount.None? && r.None? ==>
              forall j :: 0 <= j < 3 ==> CentsFields(u)[j].GetOr(0) == 0 && (j < 2 ==> DollarFields(u)[j].GetOr(0) == 0)
    ensures bodyAmount.None? ==>
              forall i :: (0 <= i < 3 && CentsFields(u)[i].GetOr(0) != 0 &&
                           forall j :: 0 <= j < i ==> CentsFields(u)[j].GetOr(0) == 0) ==> r == CentsFields(u)[i]
    ensures bodyAmount.None? && (forall j :: 0 <= j < 3 ==> CentsFields(u)[j].GetOr(0) == 0) ==>
              forall i :: (0 <= i < 2 && DollarFields(u)[i].GetOr(0) != 0 &&
                           forall j :: 0 <= j < i ==> DollarFields(u)[j].GetOr(0) == 0) ==> r == Some(100 * DollarFields(u)[i].value)
  {
    if bodyAmount.Some? then bodyAmount
    else
      var i := FirstNonZeroAt(CentsFields(u));
      if i < 3 then CentsFields(u)[i]
      else
        var j := FirstNonZeroAt(DollarFields(u));
        if j < 2 then Some(DollarFields(u)[j].value * 100) else None
  }

  /** A non-zero cents field is preferred to every dollar field, and the offer to the price. */
  lemma OfferCentsComeFirst(u: UserDoc)
    requires u.crownOfferCents.Some? && u.crownOfferCents.value != 0
    ensures ResolveAmountCents(u, None) == u.crownOfferCents
  {
    assert CentsFields(u)[0] == u.crownOfferCents;
  }

  /**
   * With only the dollar price set, the admin path charges what the nightly
   * path would; with a cents offer beside it, the two paths charge different
   * amounts for the same user document.
   */
  lemma AdminAndNightlyAmounts(u: UserDoc)
    ensures u.crownOfferCents.GetOr(0) == 0 && u.crownPriceCents.GetOr(0) == 0 && u.amountCents.GetOr(0) == 0 &&
            u.crownPrice.Some? && u.crownPrice.value != 0 ==>
              ResolveAmountCents(u, None) == AmountCentsFromUser(u)
    ensures u.crownPrice == Some(5) && u.crownOfferCents == Some(700) ==>
              ResolveAmountCents(u, None) == Some(700) && AmountCentsFromUser(u) == Some(500)
  {
    if u.crownOfferCents.GetOr(0) == 0 && u.crownPriceCents.GetOr(0) == 0 && u.amountCents.GetOr(0) == 0 &&
       u.crownPrice.Some? && u.crownPrice.value != 0 {
      assert FirstNonZeroAt(CentsFields(u)) == 3;
      assert DollarFields(u)[0] == u.crownPrice;
    }
    if u.crownOfferCents == Some(700) {
      OfferCentsComeFirst(u);
    }
  }

  /** The immediate charge, keyed `admin-assign:{date}:{uid}:{amount}`. */
  function AdminRequest(dateKey: string, uid: string, customer: string, paymentMethod: string, amountCents: int)
    : (r: ChargeRequest)
    requires amountCents >= MinChargeCents
    ensures r.amountCents == amountCents && r.uid == uid && r.customer == customer && r.paymentMethod == paymentMethod
    ensures r.idempotencyKey == AdminAssignKey(dateKey, uid, amountCents)
  {
    ChargeRequest(amountCents, "usd", customer, paymentMethod, AdminAssignKey(dateKey, uid, amountCents), uid,
                  "crown_admin_assign")
  }

  function FailEventOf(uid: string, amountCents: int, id: string, status: string): Event {
    Event(AdminAssignFail, uid, amountCents, None, Some(id), Some(status), None)
  }

  function WinEventOf(uid: string, amountCents: int, id: string): Event {
    Event(AdminAssignWin, uid, amountCents, None, Some(id), None, None)
  }

  /** From the amount check on: the charge, then the failure event or the crown merge and the win event. */
  function ChargeAndPublish(w: World, ctx: Ctx, uid: string, customer: string, pm: string, amount: Option<int>)
    : Assignment
  {
    if amount.None? || amount.value < MinChargeCents then Assignment(w, Reply(400, Error(InvalidAmountText)))
    else
      var req := AdminRequest(ctx.dateKey, uid, customer, pm, amount.value);
      var w1 := w.(requests := w.requests + [req]);
      match ctx.respond(req)
      case Thrown(m) => ServerError(w1, m)
      case Intent(id, status) =>
        if status != "succeeded" then
          var d := Do(w1, ctx, AddEvent(FailEventOf(uid, amount.value, id, status)));
          if d.err.Some? then ServerError(d.w, d.err.value) else Assignment(d.w, Reply(402, Declined(status, id)))
        else
          var d := Do2(w1, ctx, SetCrown(PublishAdminWin(uid, amount.value, id, ctx.dateKey, ctx.now)),
                       AddEvent(WinEventOf(uid, amount.value, id)));
          if d.err.Some? then ServerError(d.w, d.err.value) else Assignment(d.w, Reply(200, Assigned(uid, amount.value, id)))
  }

  /** From reading users/{uid} on. */
  function AssignTo(w: World, ctx: Ctx, uid: string, bodyAmount: Option<int>): Assignment {
    var d := Do(w, ctx, GetUser(uid));
    if d.err.Some? then ServerError(d.w, d.err.value)
    else if uid !in w.db.users then Assignment(d.w, Reply(404, Error(UserNotFoundError)))
    else
      var u := w.db.users[uid];
      var pm := PaymentMethodFromUser(u);
      if u.stripeCustomerId == "" || pm.None? then Assignment(d.w, Reply(400, Error(MissingPaymentText)))
      else
        var n := if NonEmptyString(u.stripeDefaultPaymentMethodId) then Did(d.w, None)
                 else Do(d.w, ctx, SetUserPaymentMethod(uid, pm.value));
        if n.err.Some? then ServerError(n.w, n.err.value)
        else ChargeAndPublish(n.w, ctx, uid, u.stripeCustomerId, pm.value, ResolveAmountCents(u, bodyAmount))
  }

  /** The whole route. */
  function AssignCrown(w: World, ctx: Ctx, header: Option<string>, env: Option<string>,
                       verify: string -> Result<string, string>, body: AssignBody): Assignment
  {
    var admin := RequireAdmin(header, env, verify);
    if admin.Failure? then ServerError(w, admin.error)
    else
      var target := TargetOf(body);
      if target.None? || target.value == "" then Assignment(w, Reply(400, Error(MissingTargetError)))
      else AssignTo(w, ctx, target.value, body.amountCents)
  }

  // ----- What the route guarantees -----

  /** The crown-document fields the route must never write. */
  predicate SettlementFieldsKept(st0: CrownStatus, st: CrownStatus) {
    && st.lastSettledForDate == st0.lastSettledForDate
    && st.assignedBy == st0.assignedBy
    && st.settlementInProgressAt == st0.settlementInProgressAt
    && st.settlementInProgressForDate == st0.settlementInProgressForDate
    && st.lastAttemptForDate == st0.lastAttemptForDate
    && st.lastAttemptResult == st0.lastAttemptResult
  }

  /**
   * What a call that reached the user `uid` guarantees, measured from the
   * gateway log, crown document and event log it started with: at most one
   * charge, under the admin key; no charge, crown or event write on a 400 or
   * 404 (the user document is covered by UsersSound); the crown
   * fields change only after a succeeded charge; the settlement fields are
   * never written; a 200 crowns the charged user and logs ADMIN_ASSIGN_WIN; a
   * 402 logs ADMIN_ASSIGN_FAIL and leaves the crown document alone.
   */
  ghost predicate Sound(ctx: Ctx, uid: string, reqs0: seq<ChargeRequest>, st0: CrownStatus, evs0: seq<Event>,
                        a: Assignment)
  {
    var reqs, st, evs := a.w.requests, a.w.db.status, a.w.db.events;
    && reqs0 <= reqs && |reqs| <= |reqs0| + 1
    && (|reqs| == |reqs0| + 1 ==>
          && reqs[|reqs0|].uid == uid && reqs[|reqs0|].amountCents >= MinChargeCents
          && reqs[|reqs0|].idempotencyKey == AdminAssignKey(ctx.dateKey, uid, reqs[|reqs0|].amountCents))
    && (a.reply.status == 400 || a.reply.status == 404 ==> reqs == reqs0 && st == st0 && evs == evs0)
    && (CrownOf(st) != CrownOf(st0) ==> |reqs| == |reqs0| + 1 && Succeeded(ctx.respond(reqs[|reqs0|])))
    && SettlementFieldsKept(st0, st)
    && (a.reply.status == 200 ==>
          && a.reply.body.Assigned? && a.reply.body.uid == uid
          && |reqs| == |reqs0| + 1
          && var amount, id := a.reply.body.amountCents, a.reply.body.paymentIntentId;
          && reqs[|reqs0|].amountCents == amount
          && ctx.respond(reqs[|reqs0|]) == Intent(id, "succeeded")
          && st.activeUid == Some(uid) && st.activePriceCents == Some(amount)
          && st.activePaymentIntentId == Some(id) && st.activeDateKey == Some(ctx.dateKey)
          && evs == evs0 + [WinEventOf(uid, amount, id)])
    && (a.reply.status == 402 ==>
          && a.reply.body.Declined? && a.reply.body.stripeStatus != "succeeded"
          && |reqs| == |reqs0| + 1
          && ctx.respond(reqs[|reqs0|]) == Intent(a.reply.body.paymentIntentId, a.reply.body.stripeStatus)
          && st == st0
          && evs == evs0 + [FailEventOf(uid, reqs[|reqs0|].amountCents, a.reply.body.paymentIntentId,
                                        a.reply.body.stripeStatus)])
  }

  /**
   * The only user-document write: normalising the payment method of `uid`
   * onto stripeDefaultPaymentMethodId when that field was not already a
   * non-empty string. A 404 writes nothing.
   */
  predicate UsersSound(uid: string, users0: map<string, UserDoc>, a: Assignment) {
    var users := a.w.db.users;
    && (|| users == users0
        || (&& uid in users0
            && !NonEmptyString(users0[uid].stripeDefaultPaymentMethodId)
            && PaymentMethodFromUser(users0[uid]).Some?
            && users == users0[uid := users0[uid].(stripeDefaultPaymentMethodId := PaymentMethodFromUser(users0[uid]))]))
    && (a.reply.status == 404 ==> users == users0)
  }

  lemma ChargeAndPublishSound(w: World, ctx: Ctx, uid: string, customer: string, pm: string, amount: Option<int>)
    ensures Sound(ctx, uid, w.requests, w.db.status, w.db.events, ChargeAndPublish(w, ctx, uid, customer, pm, amount))
    ensures ChargeAndPublish(w, ctx, uid, customer, pm, amount).w.db.users == w.db.users
    ensures var a := ChargeAndPublish(w, ctx, uid, customer, pm, amount);
            && (a.reply.status == 400 <==> amount.None? || amount.value < MinChargeCents)
            && (amount.Some? && amount.value >= MinChargeCents ==>
                  |a.w.requests| == |w.requests| + 1 &&
                  a.w.requests[|w.requests|] == AdminRequest(ctx.dateKey, uid, customer, pm, amount.value))
  {
    if amount.Some? && amount.value >= MinChargeCents {
      var req := AdminRequest(ctx.dateKey, uid, customer, pm, amount.value);
      match ctx.respond(req)
      case Thrown(m) =>
        assert (w.requests + [req])[|w.requests|] == req;
      case Intent(id, status) =>
        if status != "succeeded" {
          DeclinedSound(w, ctx, uid, req, id, status);
        } else {
          PublishedSound(w, ctx, uid, req, id);
        }
    }
  }

  /** A charge that came back with another status: the failure event, a 402, the crown untouched. */
  lemma DeclinedSound(w: World, ctx: Ctx, uid: string, req: ChargeRequest, id: string, status: string)
    requires req.uid == uid && req.amountCents >= MinChargeCents
    requires req.idempotencyKey == AdminAssignKey(ctx.dateKey, uid, req.amountCents)
    requires ctx.respond(req) == Intent(id, status) && status != "succeeded"
    ensures var d := Do(w.(requests := w.requests + [req]), ctx, AddEvent(FailEventOf(uid, req.amountCents, id, status)));
            Sound(ctx, uid, w.requests, w.db.status, w.db.events,
                  if d.err.Some? then ServerError(d.w, d.err.value) else Assignment(d.w, Reply(402, Declined(status, id))))
  {
    assert (w.requests + [req])[|w.requests|] == req;
  }

  /** A succeeded charge: the crown merge and the win event, then a 200. */
  lemma PublishedSound(w: World, ctx: Ctx, uid: string, req: ChargeRequest, id: string)
    requires req.uid == uid && req.amountCents >= MinChargeCents
    requires req.idempotencyKey == AdminAssignKey(ctx.dateKey, uid, req.amountCents)
    requires ctx.respond(req) == Intent(id, "succeeded")
    ensures var d := Do2(w.(requests := w.requests + [req]), ctx,
                         SetCrown(PublishAdminWin(uid, req.amountCents, id, ctx.dateKey, ctx.now)),
                         AddEvent(WinEventOf(uid, req.amountCents, id)));
            Sound(ctx, uid, w.requests, w.db.status, w.db.events,
                  if d.err.Some? then ServerError(d.w, d.err.value)
                  else Assignment(d.w, Reply(200, Assigned(uid, req.amountCents, id))))
  {
    assert (w.requests + [req])[|w.requests|] == req;
  }

  lemma AssignToSound(w: World, ctx: Ctx, uid: string, bodyAmount: Option<int>)
    ensures Sound(ctx, uid, w.requests, w.db.status, w.db.events, AssignTo(w, ctx, uid, bodyAmount))
    ensures UsersSound(uid, w.db.users, AssignTo(w, ctx, uid, bodyAmount))
  {
    var d := Do(w, ctx, GetUser(uid));
    if d.err.None? && uid in w.db.users {
      var u := w.db.users[uid];
      var pm := PaymentMethodFromUser(u);
      if u.stripeCustomerId != "" && pm.Some? {
        var n := if NonEmptyString(u.stripeDefaultPaymentMethodId) then Did(d.w, None)
                 else Do(d.w, ctx, SetUserPaymentMethod(uid, pm.value));
        assert n.w.requests == w.requests && n.w.db.status == w.db.status && n.w.db.events == w.db.events;
        if n.err.None? {
          ChargeAndPublishSound(n.w, ctx, uid, u.stripeCustomerId, pm.value, ResolveAmountCents(u, bodyAmount));
        }
      }
    }
  }

  /**
   * What the admin charge is for, measured from the world `w` the call on
   * `uid` started in: any charge goes to the user's stripeCustomerId and
   * payment method for the resolved amount; with the user read and the
   * normalising write succeeding, the reply is 400 exactly when a customer
   * id, a payment method or a chargeable amount is missing, and otherwise that
   * one charge is made; an unknown user gets 404 and only an unknown user does.
   */
  ghost predicate ChargesAsResolved(ctx: Ctx, uid: string, bodyAmount: Option<int>, w: World, a: Assignment) {
    && (|a.w.requests| > |w.requests| ==>
          && uid in w.db.users
          && var u := w.db.users[uid];
          && var pm, amount := PaymentMethodFromUser(u), ResolveAmountCents(u, bodyAmount);
          && u.stripeCustomerId != "" && pm.Some? && amount.Some? && amount.value >= MinChargeCents
          && a.w.requests[|w.requests|] == AdminRequest(ctx.dateKey, uid, u.stripeCustomerId, pm.value, amount.value))
    && ((uid in w.db.users && w.db.ops !in ctx.faults && w.db.ops + 1 !in ctx.faults) ==>
          && var u := w.db.users[uid];
          && var pm, amount := PaymentMethodFromUser(u), ResolveAmountCents(u, bodyAmount);
          && var refused := u.stripeCustomerId == "" || pm.None? || amount.None? || amount.value < MinChargeCents;
          && (a.reply.status == 400 <==> refused)
          && (!refused ==> |a.w.requests| == |w.requests| + 1))
    && (a.reply.status == 404 ==> uid !in w.db.users)
    && (uid !in w.db.users && w.db.ops !in ctx.faults ==> a.reply == Reply(404, Error(UserNotFoundError)))
  }

  lemma AssignToCharges(w: World, ctx: Ctx, uid: string, bodyAmount: Option<int>)
    ensures ChargesAsResolved(ctx, uid, bodyAmount, w, AssignTo(w, ctx, uid, bodyAmount))
  {
    var d := Do(w, ctx, GetUser(uid));
    if d.err.None? && uid in w.db.users {
      var u := w.db.users[uid];
      var pm := PaymentMethodFromUser(u);
      if u.stripeCustomerId != "" && pm.Some? {
        var n := if NonEmptyString(u.stripeDefaultPaymentMethodId) then Did(d.w, None)
                 else Do(d.w, ctx, SetUserPaymentMethod(uid, pm.value));
        if n.err.None? {
          ChargeAndPublishSound(n.w, ctx, uid, u.stripeCustomerId, pm.value, ResolveAmountCents(u, bodyAmount));
        }
      }
    }
  }

  /**
   * The normalising write lands before the amount check: a user with only
   * defaultPaymentMethodId and a body amount under 50 cents gets a 400, no
   * charge, no crown or event write, and yet users/{uid} now carries the
   * method as stripeDefaultPaymentMethodId.
   */
  lemma NormalisedThenRejected(w: World, ctx: Ctx, uid: string, bodyAmount: Option<int>)
    requires w.db.ops !in ctx.faults && w.db.ops + 1 !in ctx.faults
    requires uid in w.db.users
    requires w.db.users[uid].stripeCustomerId != ""
    requires !NonEmptyString(w.db.users[uid].stripeDefaultPaymentMethodId) && NonEmptyString(w.db.users[uid].defaultPaymentMethodId)
    requires bodyAmount.Some? && bodyAmount.value < MinChargeCents
    ensures var a := AssignTo(w, ctx, uid, bodyAmount);
            var u := w.db.users[uid];
            && a.reply == Reply(400, Error(InvalidAmountText))
            && a.w.requests == w.requests && a.w.db.status == w.db.status && a.w.db.events == w.db.events
            && a.w.db.users == w.db.users[uid := u.(stripeDefaultPaymentMethodId := u.defaultPaymentMethodId)]
  {
  }

  /** Every call of the route is Sound for the user it names; a non-admin caller gets 500 and an admin caller without a target 400, and neither changes anything. */
  lemma AssignCrownSound(w: World, ctx: Ctx, header: Option<string>, env: Option<string>,
                         verify: string -> Result<string, string>, body: AssignBody)
    ensures var a := AssignCrown(w, ctx, header, env, verify, body);
            var target := TargetOf(body);
            if RequireAdmin(header, env, verify).Success? && target.Some? && target.value != "" then
              && Sound(ctx, target.value, w.requests, w.db.status, w.db.events, a)
              && UsersSound(target.value, w.db.users, a)
              && ChargesAsResolved(ctx, target.value, body.amountCents, w, a)
            else if RequireAdmin(header, env, verify).Failure? then
              a.w == w && a.reply.status == 500
            else
              a == Assignment(w, Reply(400, Error(MissingTargetError)))
  {
    var target := TargetOf(body);
    if RequireAdmin(header, env, verify).Success? && target.Some? && target.value != "" {
      ReachesTarget(w, ctx, header, env, verify, body);
      AssignToSound(w, ctx, target.value, body.amountCents);
      AssignToCharges(w, ctx, target.value, body.amountCents);
    } else if RequireAdmin(header, env, verify).Failure? {
      assert AssignCrown(w, ctx, header, env, verify, body) == ServerError(w, RequireAdmin(header, env, verify).error);
    } else {
      assert AssignCrown(w, ctx, header, env, verify, body) == Assignment(w, Reply(400, Error(MissingTargetError)));
    }
  }

  /** Past the admin check and with a target, the route is AssignTo on that target. */
  lemma ReachesTarget(w: World, ctx: Ctx, header: Option<string>, env: Option<string>,
                      verify: string -> Result<string, string>, body: AssignBody)
    requires RequireAdmin(header, env, verify).Success? && TargetOf(body).Some? && TargetOf(body).value != ""
    ensures AssignCrown(w, ctx, header, env, verify, body) == AssignTo(w, ctx, TargetOf(body).value, body.amountCents)
  {
  }

  /** A caller who is not a listed admin gets a 500 and nothing is read, written or charged. */
  lemma NonAdminChangesNothing(w: World, ctx: Ctx, header: Option<string>, env: Option<string>,
                               verify: string -> Result<string, string>, body: AssignBody)
    requires RequireAdmin(header, env, verify).Failure?
    ensures var a := AssignCrown(w, ctx, header, env, verify, body);
            a.w == w && a.reply.status == 500 && a.reply.body.Error?
  {
  }

  /**
   * A 200 answers only a listed admin, names the user the body targets, who
   * now holds the crown after the one charge of this call succeeded; the
   * nightly run of the same day is not blocked by it.
   */
  lemma AssignedMeansCrowned(w: World, ctx: Ctx, header: Option<string>, env: Option<string>,
                             verify: string -> Result<string, string>, body: AssignBody)
    ensures var a := AssignCrown(w, ctx, header, env, verify, body);
            a.reply.status == 200 ==>
              && RequireAdmin(header, env, verify).Success?
              && a.reply.body.Assigned?
              && TargetOf(body) == Some(a.reply.body.uid)
              && |a.w.requests| == |w.requests| + 1
              && Succeeded(ctx.respond(a.w.requests[|w.requests|]))
              && a.w.db.status.activeUid == Some(a.reply.body.uid)
              && a.w.db.status.lastSettledForDate == w.db.status.lastSettledForDate
  {
    AssignCrownSound(w, ctx, header, env, verify, body);
  }

  // ----- The handler -----

  method ChargeAndPublishRun(store: CrownStore, gateway: Gateway, dateKey: string, now: int, uid: string,
                             customer: string, pm: string, amount: Option<int>)
    returns (reply: Reply)
    modifies store, gateway
    ensures Assignment(WorldOf(store, gateway), reply) ==
            ChargeAndPublish(old(WorldOf(store, gateway)), CtxOf(store, gateway, dateKey, now), uid, customer, pm, amount)
  {
    if amount.None? || amount.value < MinChargeCents {
      return Reply(400, Error(InvalidAmountText));
    }
    var pi := gateway.CreatePaymentIntent(AdminRequest(dateKey, uid, customer, pm, amount.value));
    match pi {
      case Thrown(m) =>
        reply := ServerError(WorldOf(store, gateway), m).reply;
      case Intent(id, status) =>
        if status != "succeeded" {
          var err := store.Perform(AddEvent(FailEventOf(uid, amount.value, id, status)));
          if err.Some? {
            return ServerError(WorldOf(store, gateway), err.value).reply;
          }
          reply := Reply(402, Declined(status, id));
        } else {
          var err := Perform2(store, gateway, dateKey, now, SetCrown(PublishAdminWin(uid, amount.value, id, dateKey, now)),
                              AddEvent(WinEventOf(uid, amount.value, id)));
          if err.Some? {
            return ServerError(WorldOf(store, gateway), err.value).reply;
          }
          reply := Reply(200, Assigned(uid, amount.value, id));
        }
    }
  }

  /** POST /api/admin/assign-crown-now, for the day dateKey at time now. */
  method AssignCrownNow(store: CrownStore, gateway: Gateway, header: Option<string>, env: Option<string>,
                        verify: string -> Result<string, string>, body: AssignBody, dateKey: string, now: int)
    returns (reply: Reply)
    modifies store, gateway
    ensures Assignment(WorldOf(store, gateway), reply) ==
            AssignCrown(old(WorldOf(store, gateway)), CtxOf(store, gateway, dateKey, now), header, env, verify, body)
  {
    var admin := RequireAdmin(header, env, verify);
    if admin.Failure? {
      return ServerError(WorldOf(store, gateway), admin.error).reply;
    }
    var target := TargetOf(body);
    if target.None? || target.value == "" {
      return Reply(400, Error(MissingTargetError));
    }
    reply := AssignToRun(store, gateway, target.value, body.amountCents, dateKey, now);
  }

  /** From reading users/{uid} on: the 404, the 400 for a missing payment method, the normalisation write, the charge. */
  method AssignToRun(store: CrownStore, gateway: Gateway, uid: string, bodyAmount: Option<int>, dateKey: string, now: int)
    returns (reply: Reply)
    modifies store, gateway
    ensures Assignment(WorldOf(store, gateway), reply) ==
            AssignTo(old(WorldOf(store, gateway)), CtxOf(store, gateway, dateKey, now), uid, bodyAmount)
  {
    var snap := store.ReadUser(uid);
    if snap.Failure? {
      return ServerError(WorldOf(store, gateway), snap.error).reply;
    }
    if snap.value.None? {
      return Reply(404, Error(UserNotFoundError));
    }
    var u := snap.value.value;
    var customerId := u.stripeCustomerId;
    var paymentMethodId := PaymentMethodFromUser(u);
    if customerId == "" || paymentMethodId.None? {
      return Reply(400, Error(MissingPaymentText));
    }
    if !NonEmptyString(u.stripeDefaultPaymentMethodId) {
      var err := store.Perform(SetUserPaymentMethod(uid, paymentMethodId.value));
      if err.Some? {
        return ServerError(WorldOf(store, gateway), err.value).reply;
      }
    }
    var amountCents := ResolveAmountCents(u, bodyAmount);
    reply := ChargeAndPublishRun(store, gateway, dateKey, now, uid, customerId, paymentMethodId.value, amountCents);
  }
}
