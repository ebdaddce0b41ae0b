/**
 * The payment gateway: a confirmed off-session PaymentIntent is requested
 * with an idempotency key and comes back with an id and a status, or the call
 * throws. Which of these happens is an oracle of the gateway.
 */
module Payments {

  /** The parameters the engine sends with paymentIntents.create. */
  datatype ChargeRequest = ChargeRequest(
    amountCents: int,
    currency: string,
    customer: string,
    paymentMethod: string,
    idempotencyKey: string,
    uid: string,
    purpose: string)

  datatype ChargeOutcome =
    | Intent(id: string, status: string)  // the PaymentIntent the call returned
    | Thrown(message: string)             // the call threw an error with this message

  predicate Succeeded(o: ChargeOutcome) {
    o.Intent? && o.status == "succeeded"
  }

  /** The gateway keeps the log of every charge requested from it. */
  class Gateway {
    var requests: seq<ChargeRequest>
    const respond: ChargeRequest -> ChargeOutcome

    constructor (respond: ChargeRequest -> ChargeOutcome)
      ensures requests == [] && this.respond == respond
    {
      requests := [];
      this.respond := respond;
    }

    method CreatePaymentIntent(req: ChargeRequest) returns (out: ChargeOutcome)
      modifies this
      ensures requests == old(requests) + [req]
      ensures out == respond(req)
    {
      requests := requests + [req];
      out := respond(req);
    }
  }
}
