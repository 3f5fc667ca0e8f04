/** MembershipService: paying for a membership through the gateway, and the
    membership status machine. INACTIVE and EXPIRED clients may start a
    payment; a verified payment makes the client ACTIVE for 30 days from the
    moment of verification; reading the status lazily turns an ACTIVE
    membership whose due date has passed into EXPIRED. Times are
    milliseconds since the epoch, and the clock reading is a parameter. */
module MembershipService {
  import opened Common
  import opened Records
  import opened Paystack

  const ClientNotFound := NotFound("Client not found")
  const AlreadyActive := BadRequest("Client already has an active membership")
  const VerificationFailed := BadRequest("Payment verification failed")
  const InvalidMetadata := BadRequest("Invalid payment metadata")
  /** The database error an update of a missing row raises (HTTP 500). */
  const RecordNotFound := Internal("Record to update not found")
  const MembershipVerifiedMessage := "Membership payment verified successfully"

  /** One day, `1000 * 60 * 60 * 24` ms. */
  const DayMillis := 86400000
  /** `membershipDuration`, in days. */
  const MembershipDays := 30

  // ---- starting a payment ----

  /** Only a client without an ACTIVE membership may start a payment. */
  predicate MayStartPayment(status: MembershipStatus) {
    status != ACTIVE
  }

  /** The transaction opened for a membership: the amount in kobo and
      metadata tagged 'membership' that names the client. */
  function MembershipInitRequest(client: Client, clientId: Id, amount: real, reference: string): InitRequest {
    InitRequest(client.email, ConvertToKobo(amount), reference,
      Metadata(Some("membership"), Some(clientId), None, Some(amount), None))
  }

  /** The charge asked for is the fee in kobo (to the nearest kobo), and a
      webhook echoing the metadata is routed to the membership handler. */
  lemma MembershipChargeMatches(client: Client, clientId: Id, amount: real, reference: string)
    ensures var req := MembershipInitRequest(client, clientId, amount, reference);
            && -0.5 <= req.amount as real - amount * 100.0 <= 0.5
            && req.reference == reference
            && PaymentTypeIs(Some(req.metadata), "membership")
            && req.metadata.clientId == Some(clientId)
  {
  }

  /** `initializeMembershipPayment`: NotFound for an unknown client,
      BadRequest for an active one; otherwise the transaction is opened and,
      only once that succeeded, its reference is recorded on the client. The
      membership status is not changed. */
  method InitializeMembershipPayment(db: Database, gw: Gateway, clientId: Id, amount: real, now: nat, token: string)
    returns (r: Result<PaymentHandles>)
    requires db.Valid() && amount > 0.0
    modifies db
    ensures db.Valid()
    ensures db.admins == old(db.admins) && db.storeItems == old(db.storeItems) && db.purchases == old(db.purchases)
    ensures clientId !in old(db.clients) ==> r == Err(ClientNotFound) && db.clients == old(db.clients)
    ensures clientId in old(db.clients) && !MayStartPayment(old(db.clients)[clientId].membershipStatus) ==>
              r == Err(AlreadyActive) && db.clients == old(db.clients)
    ensures clientId in old(db.clients) && MayStartPayment(old(db.clients)[clientId].membershipStatus) ==>
              var c := old(db.clients)[clientId];
              var reference := GenerateReference("membership", now, token);
              var init := InitializeTransaction(gw, MembershipInitRequest(c, clientId, amount, reference));
              && (init.Err? ==> r == Err(init.error) && db.clients == old(db.clients))
              && (init.Ok? ==> r == Ok(HandlesOf(init.value))
                               && db.clients == old(db.clients)[clientId := c.(membershipPaymentRef := Some(reference))])
  {
    if clientId !in db.clients {
      return Err(ClientNotFound);
    }
    var client := db.clients[clientId];
    if client.membershipStatus == ACTIVE {
      return Err(AlreadyActive);
    }
    var reference := GenerateReference("membership", now, token);
    var paymentData :- InitializeTransaction(gw, MembershipInitRequest(client, clientId, amount, reference));
    ReplaceClientKeepsTable(db.clients, clientId, client.(membershipPaymentRef := Some(reference)));
    db.clients := db.clients[clientId := client.(membershipPaymentRef := Some(reference))];
    return Ok(HandlesOf(paymentData));
  }

  // ---- verifying a payment ----

  /** `data.metadata?.client_id`. */
  function MetadataClientId(reply: VerifyResponse): Option<string> {
    if reply.data.metadata.Some? then reply.data.metadata.value.clientId else None
  }

  datatype PaidMembership = PaidMembership(reply: VerifyResponse, clientId: Id)

  /** The checks `verifyMembershipPayment` makes before writing: the gateway
      call, the charge status and the client id in the metadata. There is no
      check that the payment was already applied. */
  function PaymentToVerify(gw: Gateway, reference: string): (r: Result<PaidMembership>)
    ensures gw.getVerify(reference).None? ==> r == Err(BadRequest(VerifyFailedMessage))
    ensures gw.getVerify(reference).Some? && !ChargeSucceeded(gw.getVerify(reference).value) ==> r == Err(VerificationFailed)
    ensures (gw.getVerify(reference).Some? && ChargeSucceeded(gw.getVerify(reference).value)
             && !Truthy(MetadataClientId(gw.getVerify(reference).value))) ==> r == Err(InvalidMetadata)
    ensures r.Ok? <==> gw.getVerify(reference).Some? && ChargeSucceeded(gw.getVerify(reference).value)
                       && Truthy(MetadataClientId(gw.getVerify(reference).value))
    ensures r.Ok? ==> Some(r.value.reply) == gw.getVerify(reference) && MetadataClientId(r.value.reply) == Some(r.value.clientId)
  {
    var reply :- VerifyTransaction(gw, reference);
    if !ChargeSucceeded(reply) then Err(VerificationFailed)
    else
      var clientId := MetadataClientId(reply);
      if !Truthy(clientId) then Err(InvalidMetadata)
      else Ok(PaidMembership(reply, clientId.value))
  }

  /** The client after a payment verified at `now`: ACTIVE, paid now, due
      30 days later, whatever its status was. */
  function Activated(c: Client, now: int): (a: Client)
    ensures a.membershipStatus == ACTIVE && a.membershipPaidDate == Some(now)
    ensures a.membershipDueDate == Some(now + MembershipDays * DayMillis)
    ensures a.(membershipStatus := c.membershipStatus, membershipPaidDate := c.membershipPaidDate,
               membershipDueDate := c.membershipDueDate) == c
  {
    c.(membershipStatus := ACTIVE, membershipPaidDate := Some(now), membershipDueDate := Some(now + MembershipDays * DayMillis))
  }

  /** Verifying twice is not refused: the second verification restarts the
      30 days from its own time. */
  lemma ReverificationResetsDates(c: Client, t1: int, t2: int)
    ensures Activated(Activated(c, t1), t2) == Activated(c, t2)
  {
  }

  /** The columns `verifyMembershipPayment` selects from the updated row. */
  datatype MembershipClient = MembershipClient(
    id: Id, email: string, firstName: string, lastName: string,
    membershipStatus: MembershipStatus, membershipPaidDate: Option<int>, membershipDueDate: Option<int>)

  function Selected(c: Client): MembershipClient {
    MembershipClient(c.id, c.email, c.firstName, c.lastName, c.membershipStatus, c.membershipPaidDate, c.membershipDueDate)
  }

  datatype VerifiedMembership = VerifiedMembership(message: string, client: MembershipClient, payment: PaymentSummary)

  /** The state change `verifyMembershipPayment` makes: the client named by
      a verified payment is activated; in every other case nothing changes. */
  ghost predicate VerifyEffect(gw: Gateway, reference: string, now: int, clients0: map<Id, Client>, clients1: map<Id, Client>) {
    var c := PaymentToVerify(gw, reference);
    if c.Ok? && c.value.clientId in clients0 then
      clients1 == clients0[c.value.clientId := Activated(clients0[c.value.clientId], now)]
    else clients1 == clients0
  }

  /** `verifyMembershipPayment`: the gateway checks, then the update of the
      client named in the metadata, which fails as a database error when no
      such client exists. The last paid amount is not recorded. */
  method VerifyMembershipPayment(db: Database, gw: Gateway, reference: string, now: int)
    returns (r: Result<VerifiedMembership>)
    requires db.Valid()
    modifies db
    ensures db.Valid()
    ensures db.admins == old(db.admins) && db.storeItems == old(db.storeItems) && db.purchases == old(db.purchases)
    ensures VerifyEffect(gw, reference, now, old(db.clients), db.clients)
    ensures var c := PaymentToVerify(gw, reference);
            && (c.Err? ==> r == Err(c.error))
            && (c.Ok? && c.value.clientId !in old(db.clients) ==> r == Err(RecordNotFound))
            && (c.Ok? && c.value.clientId in old(db.clients) ==>
                  r == Ok(VerifiedMembership(MembershipVerifiedMessage,
                                             Selected(Activated(old(db.clients)[c.value.clientId], now)),
                                             SummaryOf(c.value.reply))))
  {
    var paid :- PaymentToVerify(gw, reference);
    if paid.clientId !in db.clients {
      return Err(RecordNotFound);
    }
    var updated := Activated(db.clients[paid.clientId], now);
    ReplaceClientKeepsTable(db.clients, paid.clientId, updated);
    db.clients := db.clients[paid.clientId := updated];
    return Ok(VerifiedMembership(MembershipVerifiedMessage, Selected(updated), SummaryOf(paid.reply)));
  }

  // ---- reading the status ----

  /** `membershipDueDate && membershipDueDate < now`; a missing due date is
      never expired. */
  predicate IsExpired(due: Option<int>, now: int) {
    due.Some? && due.value < now
  }

  /** The `isExpired` value the report carries: the `&&` short-circuits on a
      missing due date, so it is then null (None) rather than false. */
  function ExpiredFlag(due: Option<int>, now: int): (f: Option<bool>)
    ensures f.None? <==> due.None?
    ensures f.Some? ==> (f.value <==> IsExpired(due, now))
    ensures (f == Some(true)) <==> IsExpired(due, now)
  {
    if due.None? then None else Some(due.value < now)
  }

  /** `Math.ceil(n / d)` for a positive divisor. */
  function CeilDiv(n: int, d: int): (q: int)
    requires d > 0
    ensures (q - 1) * d < n <= q * d
  {
    (n + d - 1) / d
  }

  /** `daysRemaining`: the whole days, rounded up, until the due date; 0 when
      there is none. It is not floored at 0, so a past due date gives a
      negative count. */
  function DaysRemaining(due: Option<int>, now: int): (d: int)
    ensures due.None? ==> d == 0
    ensures due.Some? ==> (d - 1) * DayMillis < due.value - now <= d * DayMillis
  {
    if due.None? then 0 else CeilDiv(due.value - now, DayMillis)
  }

  /** Expiry and the day count agree: an expired membership has no days
      left, a running one has no negative count. */
  lemma ExpiryMatchesDaysRemaining(due: Option<int>, now: int)
    ensures IsExpired(due, now) ==> DaysRemaining(due, now) <= 0
    ensures due.Some? && !IsExpired(due, now) ==> DaysRemaining(due, now) >= 0
  {
  }

  /** The status `getMembershipStatus` reports, after the lazy flip. */
  function ReportedStatus(c: Client, now: int): (s: MembershipStatus)
    ensures s != c.membershipStatus ==> c.membershipStatus == ACTIVE && s == EXPIRED
    ensures s == EXPIRED <==> c.membershipStatus == EXPIRED || (c.membershipStatus == ACTIVE && IsExpired(c.membershipDueDate, now))
  {
    if IsExpired(c.membershipDueDate, now) && c.membershipStatus == ACTIVE then EXPIRED else c.membershipStatus
  }

  /** A freshly verified membership reads as ACTIVE, unexpired, with 30 days
      remaining. */
  lemma FreshMembershipHasThirtyDays(c: Client, now: int)
    ensures var a := Activated(c, now);
            && ReportedStatus(a, now) == ACTIVE
            && !IsExpired(a.membershipDueDate, now)
            && DaysRemaining(a.membershipDueDate, now) == MembershipDays
  {
    var a := Activated(c, now);
    var d := DaysRemaining(a.membershipDueDate, now);
    assert (d - 1) * DayMillis < MembershipDays * DayMillis <= d * DayMillis;
  }

  /** An active membership stays ACTIVE until its due date and reads as
      EXPIRED from the first moment after it. */
  lemma ActiveUntilDue(c: Client, now: int)
    requires c.membershipStatus == ACTIVE && c.membershipDueDate.Some?
    ensures ReportedStatus(c, now) == ACTIVE <==> now <= c.membershipDueDate.value
    ensures ReportedStatus(c, now) == EXPIRED <==> now > c.membershipDueDate.value
  {
  }

  datatype MembershipStatusView = MembershipStatusView(
    status: MembershipStatus, paidDate: Option<int>, dueDate: Option<int>, isExpired: Option<bool>, daysRemaining: int)

  /** `getMembershipStatus`: NotFound for an unknown client; otherwise the
      status report (with `isExpired` null when there is no due date), and
      the stored status becomes EXPIRED exactly when an
      ACTIVE membership is past due (INACTIVE and EXPIRED rows are never
      written). */
  method GetMembershipStatus(db: Database, clientId: Id, now: int) returns (r: Result<MembershipStatusView>)
    requires db.Valid()
    modifies db
    ensures db.Valid()
    ensures db.admins == old(db.admins) && db.storeItems == old(db.storeItems) && db.purchases == old(db.purchases)
    ensures clientId !in old(db.clients) ==> r == Err(ClientNotFound) && db.clients == old(db.clients)
    ensures clientId in old(db.clients) ==>
              var c := old(db.clients)[clientId];
              && db.clients == old(db.clients)[clientId := c.(membershipStatus := ReportedStatus(c, now))]
              && r == Ok(MembershipStatusView(ReportedStatus(c, now), c.membershipPaidDate, c.membershipDueDate,
                                              ExpiredFlag(c.membershipDueDate, now), DaysRemaining(c.membershipDueDate, now)))
    ensures clientId in old(db.clients) && old(db.clients)[clientId].membershipStatus != ACTIVE ==> db.clients == old(db.clients)
  {
    if clientId !in db.clients {
      return Err(ClientNotFound);
    }
    var client := db.clients[clientId];
    var isExpired: Option<bool> := None;
    if client.membershipDueDate.Some? {
      isExpired := Some(client.membershipDueDate.value < now);
    }
    var status := client.membershipStatus;
    if isExpired == Some(true) && client.membershipStatus == ACTIVE {
      ReplaceClientKeepsTable(db.clients, clientId, client.(membershipStatus := EXPIRED));
      db.clients := db.clients[clientId := client.(membershipStatus := EXPIRED)];
      status := EXPIRED;
    } else {
      assert db.clients[clientId := client.(membershipStatus := ReportedStatus(client, now))] == db.clients;
    }
    var daysRemaining := 0;
    if client.membershipDueDate.Some? {
      daysRemaining := (client.membershipDueDate.value - now + DayMillis - 1) / DayMillis;
    }
    return Ok(MembershipStatusView(status, client.membershipPaidDate, client.membershipDueDate, isExpired, daysRemaining));
  }

  /** Reading the status twice at the same time gives the same report and
      writes nothing the second time. */
  lemma StatusReadIsIdempotent(c: Client, now: int)
    ensures var c1 := c.(membershipStatus := ReportedStatus(c, now));
            ReportedStatus(c1, now) == ReportedStatus(c, now) && c1.(membershipStatus := ReportedStatus(c1, now)) == c1
  {
  }

  /** `handleWebhook`: only a 'charge.success' event tagged 'membership'
      leads to a verification, whose errors are swallowed; an event without
      `data` fails. */
  method HandleWebhook(db: Database, gw: Gateway, ev: WebhookEvent, now: int) returns (r: Result<()>)
    requires db.Valid()
    modifies db
    ensures db.Valid()
    ensures db.admins == old(db.admins) && db.storeItems == old(db.storeItems) && db.purchases == old(db.purchases)
    ensures var a := WebhookActionFor(ev, "membership");
            && (a.Malformed? ==> r == Err(Internal(DestructureMessage)))
            && (!a.Malformed? ==> r == Ok(()))
            && (!a.VerifyReference? ==> db.clients == old(db.clients))
            && (a.VerifyReference? ==> VerifyEffect(gw, a.reference, now, old(db.clients), db.clients))
  {
    match WebhookActionFor(ev, "membership")
    case Ignore =>
      return Ok(());
    case Malformed =>
      return Err(Internal(DestructureMessage));
    case VerifyReference(reference) =>
      var _ := VerifyMembershipPayment(db, gw, reference, now);
      return Ok(());
  }
}
