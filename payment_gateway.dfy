/**
 * `StripeService`, seen from the booking router: a gateway that creates
 * payment intents and reports their status. The Stripe SDK behind it is not
 * part of this model; the gateway is a map from intent id to status string,
 * the client secret of a new intent is the gateway's answer and arrives as a
 * parameter, and the status changes the payment flow causes outside the API
 * (the customer paying) arrive through `Progress`.
 */
module Payments {
  import opened Wrappers

  /** The status Stripe reports for a new intent, and for a paid one. */
  const RequiresPaymentMethod: string := "requires_payment_method"
  const Succeeded: string := "succeeded"

  /** One call the gateway received: `paymentIntents.create` with its arguments, or `paymentIntents.retrieve`. */
  datatype GatewayCall =
    | Create(amount: int, currency: string, paymentMethodTypes: seq<string>)
    | Retrieve(id: nat)

  /** A created intent: its id and its client secret, which Stripe may leave null. */
  datatype CreatedIntent = CreatedIntent(id: nat, clientSecret: Option<string>)

  /**
   * `isSucceeded(paymentIntent)`: the intent's status is `succeeded`; in
   * particular a new intent, still awaiting its payment method, has not.
   */
  predicate IsSucceeded(status: string)
    ensures IsSucceeded(status) ==> status != RequiresPaymentMethod
  {
    status == Succeeded
  }

  class PaymentGateway {
    /** Intent id to its current status. */
    var intents: map<nat, string>
    /** The id the next created intent receives. */
    var nextIntent: nat
    /** Every call the gateway received, oldest first. */
    var requests: seq<GatewayCall>

    ghost predicate Valid()
      reads this
    {
      forall id | id in intents :: id < nextIntent
    }

    constructor()
      ensures Valid()
      ensures intents == map[] && nextIntent == 0 && requests == []
    {
      intents := map[];
      nextIntent := 0;
      requests := [];
    }

    /**
     * `createPaymentIntent(amount, currency, paymentMethodTypes)`: a fresh
     * intent that awaits a payment method; `clientSecret` is the secret the
     * gateway answers with.
     */
    method CreatePaymentIntent(amount: int, currency: string, paymentMethodTypes: seq<string>, clientSecret: Option<string>)
      returns (r: CreatedIntent)
      requires Valid()
      modifies this
      ensures Valid()
      ensures r.id == old(nextIntent) && r.id !in old(intents) && r.clientSecret == clientSecret
      ensures intents == old(intents)[r.id := RequiresPaymentMethod]
      ensures requests == old(requests) + [Create(amount, currency, paymentMethodTypes)]
      ensures nextIntent == old(nextIntent) + 1
    {
      r := CreatedIntent(nextIntent, clientSecret);
      intents := intents[nextIntent := RequiresPaymentMethod];
      requests := requests + [Create(amount, currency, paymentMethodTypes)];
      nextIntent := nextIntent + 1;
    }

    /** `retrievePaymentIntent(id)`: the intent's current status; the SDK throws for an unknown id. */
    method RetrievePaymentIntent(id: nat) returns (r: Option<string>)
      requires Valid()
      modifies this
      ensures Valid()
      ensures intents == old(intents) && nextIntent == old(nextIntent)
      ensures requests == old(requests) + [Retrieve(id)]
      ensures r.Some? <==> id in intents
      ensures r.Some? ==> r.value == intents[id]
    {
      requests := requests + [Retrieve(id)];
      if id in intents {
        r := Some(intents[id]);
      } else {
        r := None;
      }
    }

    /** A status change the gateway makes outside the API, such as the customer paying. */
    method Progress(id: nat, status: string)
      requires Valid()
      requires id in intents
      modifies this
      ensures Valid()
      ensures intents == old(intents)[id := status]
      ensures nextIntent == old(nextIntent) && requests == old(requests)
    {
      intents := intents[id := status];
    }
  }
}
