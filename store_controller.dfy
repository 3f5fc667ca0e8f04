/** StoreController: the parts with logic of their own. The `includeInactive`
    query flag, and the store's webhook endpoint, which checks the gateway's
    signature over the raw body before parsing it and handing it to the
    store service. JSON parsing is a function given as a parameter. */
module StoreController {
  import opened Common
  import opened Records
  import opened Paystack
  import StoreService

  /** Only the exact query string 'true' asks for inactive items too. */
  function IncludeInactiveFlag(query: Option<string>): (b: bool)
    ensures b <==> query == Some("true")
  {
    query.Some? && query.value == "true"
  }

  /** `GET items`: the listing the query selects. */
  function FindAllStoreItems(items: map<Id, StoreItem>, query: Option<string>): map<Id, StoreItem> {
    StoreService.FindAllStoreItems(items, IncludeInactiveFlag(query))
  }

  /** Without `includeInactive=true` no inactive item is listed; with it,
      every item is. */
  lemma InactiveItemsOnlyOnRequest(items: map<Id, StoreItem>, query: Option<string>)
    ensures query != Some("true") ==> forall k :: k in FindAllStoreItems(items, query) ==> items[k].isActive
    ensures query == Some("true") ==> FindAllStoreItems(items, query) == items
  {
  }

  const InvalidSignatureMessage := "Invalid signature"
  const WebhookProcessedMessage := "Webhook processed successfully"
  /** What `JSON.parse` throws on a body that is not JSON (HTTP 500). */
  const UnparsableBody := Internal("Unexpected token in JSON")

  /** Where a webhook call goes: refused for its signature, failed on a body
      that does not parse, or delivered to the service as this event. */
  datatype WebhookStep = Rejected | Unparsable | Deliver(ev: WebhookEvent)

  /** The endpoint's decision before the service is called. */
  function WebhookRoute(gw: Gateway, body: string, signature: Option<string>, parse: string -> Option<WebhookEvent>): (s: WebhookStep)
    ensures s.Rejected? <==> !VerifyWebhookSignature(gw, body, signature)
    ensures s.Deliver? <==> VerifyWebhookSignature(gw, body, signature) && parse(body).Some?
    ensures s.Deliver? ==> s.ev == parse(body).value
  {
    if !VerifyWebhookSignature(gw, body, signature) then Rejected
    else match parse(body)
      case None => Unparsable
      case Some(ev) => Deliver(ev)
  }

  /** A correctly signed 'charge.success' event carrying store-purchase
      metadata reaches the verification of its reference, and an unsigned
      or wrongly signed call reaches nothing. */
  lemma SignedStorePaymentReachesVerify(gw: Gateway, body: string, signature: Option<string>, parse: string -> Option<WebhookEvent>)
    ensures signature != Some(gw.hmacSha512Hex(gw.secretKey, body)) ==> WebhookRoute(gw, body, signature, parse) == Rejected
    ensures signature == Some(gw.hmacSha512Hex(gw.secretKey, body)) && parse(body).Some?
            && parse(body).value.event == ChargeSuccess && parse(body).value.data.Some?
            && PaymentTypeIs(parse(body).value.data.value.metadata, "store_purchase") ==>
              && WebhookRoute(gw, body, signature, parse) == Deliver(parse(body).value)
              && WebhookActionFor(parse(body).value, "store_purchase") == VerifyReference(parse(body).value.data.value.reference)
  {
  }

  /** `POST webhook`: 'Invalid signature' (with status 200) and no change
      when the signature does not match; otherwise the parsed event goes to
      the store service, and its success message is returned unless parsing
      or the handler failed. */
  method HandleWebhook(db: Database, gw: Gateway, body: string, signature: Option<string>, parse: string -> Option<WebhookEvent>)
    returns (r: Result<string>)
    requires db.Valid()
    modifies db
    ensures db.Valid()
    ensures db.clients == old(db.clients) && db.admins == old(db.admins)
    ensures var step := WebhookRoute(gw, body, signature, parse);
            && (step.Rejected? ==> r == Ok(InvalidSignatureMessage))
            && (step.Unparsable? ==> r == Err(UnparsableBody))
            && (!step.Deliver? ==> db.purchases == old(db.purchases) && db.storeItems == old(db.storeItems))
            && (step.Deliver? ==>
                  var a := WebhookActionFor(step.ev, "store_purchase");
                  && (a.Malformed? ==> r == Err(Internal(DestructureMessage)))
                  && (!a.Malformed? ==> r == Ok(WebhookProcessedMessage))
                  && (!a.VerifyReference? ==> db.purchases == old(db.purchases) && db.storeItems == old(db.storeItems))
                  && (a.VerifyReference? ==>
                        StoreService.VerifyEffect(gw, a.reference, old(db.purchases), old(db.storeItems), db.purchases, db.storeItems)))
  {
    if !VerifyWebhookSignature(gw, body, signature) {
      return Ok(InvalidSignatureMessage);
    }
    var webhookData := parse(body);
    if webhookData.None? {
      return Err(UnparsableBody);
    }
    var _ :- StoreService.HandleWebhook(db, gw, webhookData.value);
    return Ok(WebhookProcessedMessage);
  }
}
