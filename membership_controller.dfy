/** MembershipController's webhook endpoint. After the signature check it
    dispatches on the TOP-LEVEL `metadata.payment_type` of the event, while
    both services' handlers read the metadata under `data`: 'membership'
    goes to the membership handler, 'subscription' to the store handler, and
    any other value to no handler at all, with the success message still
    returned. */
module MembershipController {
  import opened Common
  import opened Records
  import opened Paystack
  import StoreService
  import MembershipService
  import StoreController

  /** Which handler a signed, parsed event is given to. */
  datatype Dispatch = ToMembership | ToStore | NoHandler

  /** `webhookData.metadata?.payment_type`, compared with 'membership' first. */
  function DispatchFor(ev: WebhookEvent): (d: Dispatch)
    ensures d == ToMembership <==> PaymentTypeIs(ev.metadata, "membership")
    ensures d == ToStore <==> PaymentTypeIs(ev.metadata, "subscription")
  {
    if PaymentTypeIs(ev.metadata, "membership") then ToMembership
    else if PaymentTypeIs(ev.metadata, "subscription") then ToStore
    else NoHandler
  }

  /** The event reaches the membership verification exactly when it is tagged
      'membership' both at the top level and under `data`, and is a
      successful charge. */
  lemma MembershipVerifiedOnlyWhenBothTagsAgree(ev: WebhookEvent)
    ensures DispatchFor(ev) == ToMembership && WebhookActionFor(ev, "membership").VerifyReference? <==>
              && PaymentTypeIs(ev.metadata, "membership")
              && ev.event == ChargeSuccess && ev.data.Some? && PaymentTypeIs(ev.data.value.metadata, "membership")
  {
  }

  /** Through this endpoint a purchase is verified only for an event tagged
      'subscription' at the top level and 'store_purchase' under `data`; so
      an event whose two metadata objects carry the same tag never verifies
      a purchase here. */
  lemma StorePathNeedsMismatchedTags(ev: WebhookEvent)
    ensures DispatchFor(ev) == ToStore && WebhookActionFor(ev, "store_purchase").VerifyReference? <==>
              && PaymentTypeIs(ev.metadata, "subscription")
              && ev.event == ChargeSuccess && ev.data.Some? && PaymentTypeIs(ev.data.value.metadata, "store_purchase")
    ensures ev.data.Some? && ev.data.value.metadata == ev.metadata ==>
              !(DispatchFor(ev) == ToStore && WebhookActionFor(ev, "store_purchase").VerifyReference?)
  {
  }

  /** `POST webhook` of the membership endpoint. */
  method HandleWebhook(db: Database, gw: Gateway, body: string, signature: Option<string>,
                       parse: string -> Option<WebhookEvent>, now: int)
    returns (r: Result<string>)
    requires db.Valid()
    modifies db
    ensures db.Valid()
    ensures db.admins == old(db.admins)
    ensures var step := StoreController.WebhookRoute(gw, body, signature, parse);
            && (step.Rejected? ==> r == Ok(StoreController.InvalidSignatureMessage))
            && (step.Unparsable? ==> r == Err(StoreController.UnparsableBody))
            && (!step.Deliver? || DispatchFor(step.ev) == NoHandler ==>
                  && db.clients == old(db.clients) && db.purchases == old(db.purchases) && db.storeItems == old(db.storeItems))
            && (step.Deliver? && DispatchFor(step.ev) == NoHandler ==> r == Ok(StoreController.WebhookProcessedMessage))
            && (step.Deliver? && DispatchFor(step.ev) == ToMembership ==>
                  var a := WebhookActionFor(step.ev, "membership");
                  && db.purchases == old(db.purchases) && db.storeItems == old(db.storeItems)
                  && (a.Malformed? ==> r == Err(Internal(DestructureMessage)))
                  && (!a.Malformed? ==> r == Ok(StoreController.WebhookProcessedMessage))
                  && (!a.VerifyReference? ==> db.clients == old(db.clients))
                  && (a.VerifyReference? ==> MembershipService.VerifyEffect(gw, a.reference, now, old(db.clients), db.clients)))
            && (step.Deliver? && DispatchFor(step.ev) == ToStore ==>
                  var a := WebhookActionFor(step.ev, "store_purchase");
                  && db.clients == old(db.clients)
                  && (a.Malformed? ==> r == Err(Internal(DestructureMessage)))
                  && (!a.Malformed? ==> r == Ok(StoreController.WebhookProcessedMessage))
                  && (!a.VerifyReference? ==> db.purchases == old(db.purchases) && db.storeItems == old(db.storeItems))
                  && (a.VerifyReference? ==>
                        StoreService.VerifyEffect(gw, a.reference, old(db.purchases), old(db.storeItems), db.purchases, db.storeItems)))
  {
    if !VerifyWebhookSignature(gw, body, signature) {
      return Ok(StoreController.InvalidSignatureMessage);
    }
    var webhookData := parse(body);
    if webhookData.None? {
      return Err(StoreController.UnparsableBody);
    }
    var ev := webhookData.value;
    if PaymentTypeIs(ev.metadata, "membership") {
      var _ :- MembershipService.HandleWebhook(db, gw, ev, now);
    } else if PaymentTypeIs(ev.metadata, "subscription") {
      var _ :- StoreService.HandleWebhook(db, gw, ev);
    }
    return Ok(StoreController.WebhookProcessedMessage);
  }
}
