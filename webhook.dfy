/**
  The payment webhook: a token check, an order lookup, a status check and the
  update that records a confirmed payment on the order.
*/
module Webhook {
  import opened Wrappers
  import opened Orders

  /** The `data` object of the gateway's notification body. */
  datatype PaymentData = PaymentData(
    id: string,
    amount: real,
    paymentRequestId: string,
    referenceId: OrderId,
    status: string)

  /** The notification body. */
  datatype Notification = Notification(event: string, data: PaymentData)

  /** The HTTP outcome: 401, 404, 200 without a write, 200 "OK" after the write. */
  datatype Response = Unauthorized | UnknownOrder | Acknowledged | Applied

  /** The only status literal that confirms a payment. */
  const Succeeded: string := "SUCCEEDED"

  /**
    The token comparison as written: the `x-callback-token` header against the
    configured secret, each possibly absent, compared with `!==`. Two absent
    values compare equal.
  */
  predicate TokenAcceptedAsWritten(header: Option<string>, secret: Option<string>)
  {
    header == secret
  }

  /** As written, an unset secret lets a request without the header through. */
  lemma UnsetSecretAcceptsMissingHeader()
    ensures TokenAcceptedAsWritten(None, None)
  {
  }

  /** The comparison as intended: a secret is configured and the header carries exactly it. */
  predicate TokenAccepted(header: Option<string>, secret: Option<string>)
  {
    secret.Some? && header == secret
  }

  /** The corrected check agrees with the written one whenever a secret is configured, and rejects everything otherwise. */
  lemma TokenAcceptedCorrectsUnsetSecret(header: Option<string>, secret: Option<string>)
    ensures TokenAccepted(header, secret) ==> TokenAcceptedAsWritten(header, secret)
    ensures secret.Some? ==> (TokenAccepted(header, secret) <==> TokenAcceptedAsWritten(header, secret))
    ensures secret.None? ==> !TokenAccepted(header, secret)
  {
  }

  /**
    The webhook handler. `secret` is the configured token, `header` the request's
    `x-callback-token`, `now` the time of the call. The success update does not
    look at the order's current status.
  */
  method Handle(db: Ledger, header: Option<string>, secret: Option<string>, body: Notification, now: Timestamp)
    returns (r: Response)
    requires db.Valid()
    modifies db
    ensures db.Valid()
    ensures db.items == old(db.items)
    ensures !TokenAccepted(header, secret) ==> r == Unauthorized
    ensures TokenAccepted(header, secret) && body.data.referenceId !in old(db.orders) ==> r == UnknownOrder
    ensures TokenAccepted(header, secret) && body.data.referenceId in old(db.orders) && body.data.status != Succeeded ==>
              r == Acknowledged
    ensures r != Applied ==> db.orders == old(db.orders)
    ensures r == Applied <==>
              TokenAccepted(header, secret) && body.data.referenceId in old(db.orders) && body.data.status == Succeeded
    ensures r == Applied ==>
              var id := body.data.referenceId;
              db.orders == old(db.orders)[id := Paid(old(db.orders)[id], now)]
  {
    if !TokenAccepted(header, secret) {
      return Unauthorized;
    }
    var id := body.data.referenceId;
    if id !in db.orders {
      return UnknownOrder;
    }
    var order := db.orders[id];
    if body.data.status != Succeeded {
      return Acknowledged;
    }
    db.orders := db.orders[id := Paid(order, now)];
    r := Applied;
  }
}
