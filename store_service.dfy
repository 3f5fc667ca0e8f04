/** StoreService: the store catalogue (items with stock and an optional
    image) and the purchase lifecycle. A purchase is created PENDING with a
    price snapshot of every line and no stock reserved; verifying its payment
    completes it once and takes each line's quantity out of stock. */
module StoreService {
  import opened Common
  import opened Records
  import opened Paystack

  // ---- catalogue ----

  /** `CreateStoreItemDto`; validation guarantees price > 0 and quantity >= 0. */
  datatype CreateStoreItemDto = CreateStoreItemDto(
    name: string, description: Option<string>, price: int, quantity: int, isActive: Option<bool>)

  /** `UpdateStoreItemDto`: every field optional; an absent field keeps the stored value. */
  datatype UpdateStoreItemDto = UpdateStoreItemDto(
    name: Option<string>, description: Option<string>, price: Option<int>, quantity: Option<int>, isActive: Option<bool>)

  predicate ValidCreateItemDto(dto: CreateStoreItemDto) {
    dto.price > 0 && dto.quantity >= 0
  }

  predicate ValidUpdateItemDto(dto: UpdateStoreItemDto) {
    (dto.price.Some? ==> dto.price.value > 0) && (dto.quantity.Some? ==> dto.quantity.value >= 0)
  }

  /** `findAllStoreItems`: every item when `includeInactive`, otherwise the
      active ones; rows are returned as stored. */
  function FindAllStoreItems(items: map<Id, StoreItem>, includeInactive: bool): (r: map<Id, StoreItem>)
    ensures includeInactive ==> r == items
    ensures forall k :: k in r ==> k in items && r[k] == items[k] && (includeInactive || r[k].isActive)
    ensures forall k :: k in items && items[k].isActive ==> k in r
  {
    map k | k in items && (includeInactive || items[k].isActive) :: items[k]
  }

  const StoreItemNotFound := NotFound("Store item not found")

  /** `findOneStoreItem`. */
  function FindOneStoreItem(items: map<Id, StoreItem>, id: Id): (r: Result<StoreItem>)
    ensures r.Ok? <==> id in items
    ensures r.Ok? ==> r.value == items[id]
    ensures r.Err? ==> r.error == StoreItemNotFound
  {
    if id in items then Ok(items[id]) else Err(StoreItemNotFound)
  }

  /** The row `storeItem.update` writes: the DTO's present fields over the
      stored row, and the image URL replaced by `imageUrl` unconditionally. */
  function UpdatedItem(it: StoreItem, dto: UpdateStoreItemDto, imageUrl: Option<string>): StoreItem {
    it.(name := dto.name.GetOr(it.name),
        description := if dto.description.Some? then dto.description else it.description,
        price := dto.price.GetOr(it.price),
        quantity := dto.quantity.GetOr(it.quantity),
        isActive := dto.isActive.GetOr(it.isActive),
        imageUrl := imageUrl)
  }

  /** `updateStoreItem`: NotFound for an unknown id; an upload failure aborts
      before the write; otherwise the row is rewritten, and an update sent
      without an image clears the stored image URL. */
  method UpdateStoreItem(db: Database, id: Id, dto: UpdateStoreItemDto, image: Upload) returns (r: Result<StoreItem>)
    requires db.Valid() && ValidUpdateItemDto(dto)
    modifies db
    ensures db.Valid()
    ensures db.clients == old(db.clients) && db.admins == old(db.admins) && db.purchases == old(db.purchases)
    ensures id !in old(db.storeItems) ==> r == Err(StoreItemNotFound) && db.storeItems == old(db.storeItems)
    ensures id in old(db.storeItems) && image.UploadFailed? ==>
              r == Err(Internal(UploadFailedMessage)) && db.storeItems == old(db.storeItems)
    ensures id in old(db.storeItems) && !image.UploadFailed? ==>
              && r.Ok?
              && r.value == UpdatedItem(old(db.storeItems)[id], dto, UploadUrl(image).value)
              && db.storeItems == old(db.storeItems)[id := r.value]
    ensures r.Ok? ==> r.value.id == id && (r.value.imageUrl.Some? <==> image.Uploaded?)
  {
    var existing :- FindOneStoreItem(db.storeItems, id);
    var imageUrl :- UploadUrl(image);
    var updated := UpdatedItem(existing, dto, imageUrl);
    db.storeItems := db.storeItems[id := updated];
    return Ok(updated);
  }

  /** `createStoreItem`: the DTO's fields, an image URL when a file was sent,
      and `isActive` defaulting to true when the DTO leaves it out. */
  method CreateStoreItem(db: Database, dto: CreateStoreItemDto, image: Upload, newId: Id) returns (r: Result<StoreItem>)
    requires db.Valid() && ValidCreateItemDto(dto) && newId !in db.storeItems
    modifies db
    ensures db.Valid()
    ensures db.clients == old(db.clients) && db.admins == old(db.admins) && db.purchases == old(db.purchases)
    ensures image.UploadFailed? ==> r == Err(Internal(UploadFailedMessage)) && db.storeItems == old(db.storeItems)
    ensures !image.UploadFailed? ==>
              && r == Ok(StoreItem(newId, dto.name, dto.description, dto.price, dto.quantity,
                                   dto.isActive.GetOr(true), UploadUrl(image).value))
              && db.storeItems == old(db.storeItems)[newId := r.value]
  {
    var imageUrl :- UploadUrl(image);
    var item := StoreItem(newId, dto.name, dto.description, dto.price, dto.quantity, dto.isActive.GetOr(true), imageUrl);
    db.storeItems := db.storeItems[newId := item];
    return Ok(item);
  }

  // ---- creating a purchase ----

  datatype LineRequest = LineRequest(storeItemId: Id, quantity: int)

  datatype CreatePurchaseDto = CreatePurchaseDto(items: seq<LineRequest>, deliveryOption: DeliveryOption, deliveryAddress: Option<string>)

  /** Validation guarantees every requested quantity is at least 1. */
  predicate ValidPurchaseDto(dto: CreatePurchaseDto) {
    forall i :: 0 <= i < |dto.items| ==> dto.items[i].quantity >= 1
  }

  const ClientNotFound := NotFound("Client not found")
  const MembershipRequired := Forbidden("Active membership required to make purchases")
  const AddressRequired := BadRequest("Delivery address is required for delivery option")

  function ItemNotFound(id: Id): Error {
    NotFound("Store item with ID " + id + " not found")
  }

  function ItemUnavailable(name: string): Error {
    BadRequest("Store item " + name + " is not available")
  }

  function InsufficientStock(name: string, available: int): Error {
    BadRequest("Insufficient quantity for " + name + ". Available: " + IntString(available))
  }

  /** Why one requested line is refused, checked in the order the loop does. */
  function LineRejection(items: map<Id, StoreItem>, line: LineRequest): Option<Error> {
    if line.storeItemId !in items then Some(ItemNotFound(line.storeItemId))
    else
      var it := items[line.storeItemId];
      if !it.isActive then Some(ItemUnavailable(it.name))
      else if it.quantity < line.quantity then Some(InsufficientStock(it.name, it.quantity))
      else None
  }

  /** A line is acceptable when its item exists, is active and has at least
      the requested quantity in stock. */
  lemma LineAcceptedIff(items: map<Id, StoreItem>, line: LineRequest)
    ensures LineRejection(items, line).None? <==>
              line.storeItemId in items && items[line.storeItemId].isActive
              && items[line.storeItemId].quantity >= line.quantity
  {
  }

  /** The first refused line's error, scanning the lines in order. */
  function FirstLineRejection(items: map<Id, StoreItem>, lines: seq<LineRequest>): (r: Option<Error>)
    ensures r.None? <==> forall i :: 0 <= i < |lines| ==> LineRejection(items, lines[i]).None?
  {
    if lines == [] then None
    else
      var init := lines[..|lines| - 1];
      var prev := FirstLineRejection(items, init);
      assert forall i :: 0 <= i < |init| ==> init[i] == lines[i];
      if prev.Some? then prev else LineRejection(items, lines[|lines| - 1])
  }

  /** The line `createPurchase` stores: the item's current price as unit
      price and price × quantity as line total. */
  function Snapshot(items: map<Id, StoreItem>, line: LineRequest): PurchaseItem
    requires line.storeItemId in items
  {
    var price := items[line.storeItemId].price;
    PurchaseItem(line.storeItemId, line.quantity, price, price * line.quantity)
  }

  predicate AllListed(items: map<Id, StoreItem>, lines: seq<LineRequest>) {
    forall i :: 0 <= i < |lines| ==> lines[i].storeItemId in items
  }

  /** Every requested line snapshotted, in order. */
  function Snapshots(items: map<Id, StoreItem>, lines: seq<LineRequest>): (r: seq<PurchaseItem>)
    requires AllListed(items, lines)
    ensures |r| == |lines|
    ensures forall i :: 0 <= i < |lines| ==> r[i] == Snapshot(items, lines[i])
  {
    if lines == [] then []
    else Snapshots(items, lines[..|lines| - 1]) + [Snapshot(items, lines[|lines| - 1])]
  }

  /** Reference definition of an order's value: Σ price × quantity over the
      requested lines, at the items' current prices. */
  function OrderValue(items: map<Id, StoreItem>, lines: seq<LineRequest>): int
    requires AllListed(items, lines)
  {
    if lines == [] then 0
    else OrderValue(items, lines[..|lines| - 1]) + items[lines[|lines| - 1].storeItemId].price * lines[|lines| - 1].quantity
  }

  /** The stored total, the sum of the snapshotted line totals, is the order value. */
  lemma {:induction false} SnapshotTotalIsOrderValue(items: map<Id, StoreItem>, lines: seq<LineRequest>)
    requires AllListed(items, lines)
    ensures LinesTotal(Snapshots(items, lines)) == OrderValue(items, lines)
  {
    if lines != [] {
      var init := lines[..|lines| - 1];
      var s := Snapshots(items, lines);
      assert s[..|s| - 1] == Snapshots(items, init);
      SnapshotTotalIsOrderValue(items, init);
    }
  }

  /** Why `createPurchase` refuses, in the order it checks: the client, its
      membership, the delivery address, then each line. */
  function CheckoutRejection(clients: map<Id, Client>, items: map<Id, StoreItem>, clientId: Id, dto: CreatePurchaseDto): (r: Option<Error>)
    ensures r.None? ==> clientId in clients && AllListed(items, dto.items)
  {
    if clientId !in clients then Some(ClientNotFound)
    else if clients[clientId].membershipStatus != ACTIVE then Some(MembershipRequired)
    else if dto.deliveryOption == DELIVERY && !Truthy(dto.deliveryAddress) then Some(AddressRequired)
    else FirstLineRejection(items, dto.items)
  }

  /** The client, membership and address guards come first and do not look
      at the store items at all. */
  lemma ClientGuardsComeFirst(
    clients: map<Id, Client>, items1: map<Id, StoreItem>, items2: map<Id, StoreItem>, clientId: Id, dto: CreatePurchaseDto)
    ensures clientId !in clients ==> CheckoutRejection(clients, items1, clientId, dto) == Some(ClientNotFound)
    ensures clientId in clients && clients[clientId].membershipStatus != ACTIVE ==>
              CheckoutRejection(clients, items1, clientId, dto) == Some(MembershipRequired)
    ensures clientId in clients && clients[clientId].membershipStatus == ACTIVE
            && dto.deliveryOption == DELIVERY && !Truthy(dto.deliveryAddress) ==>
              CheckoutRejection(clients, items1, clientId, dto) == Some(AddressRequired)
    ensures clientId !in clients || clients[clientId].membershipStatus != ACTIVE
            || (dto.deliveryOption == DELIVERY && !Truthy(dto.deliveryAddress)) ==>
              CheckoutRejection(clients, items1, clientId, dto) == CheckoutRejection(clients, items2, clientId, dto)
  {
  }

  /** An accepted checkout has an active client, an address when delivery is
      asked for, and every line's item listed, active and in stock. */
  lemma AcceptedCheckout(clients: map<Id, Client>, items: map<Id, StoreItem>, clientId: Id, dto: CreatePurchaseDto)
    requires CheckoutRejection(clients, items, clientId, dto).None?
    ensures clientId in clients && clients[clientId].membershipStatus == ACTIVE
    ensures dto.deliveryOption == DELIVERY ==> Truthy(dto.deliveryAddress)
    ensures forall i :: 0 <= i < |dto.items| ==>
              var id := dto.items[i].storeItemId;
              id in items && items[id].isActive && items[id].quantity >= dto.items[i].quantity
  {
    forall i | 0 <= i < |dto.items|
      ensures var id := dto.items[i].storeItemId;
              id in items && items[id].isActive && items[id].quantity >= dto.items[i].quantity
    {
      LineAcceptedIff(items, dto.items[i]);
    }
  }

  /** Stock is checked line by line against the unchanged table: two lines
      for the same item, each within stock, are accepted even when together
      they exceed it. */
  lemma StockCheckedPerLine(items: map<Id, StoreItem>, id: Id, q1: int, q2: int)
    requires id in items && items[id].isActive
    requires q1 <= items[id].quantity && q2 <= items[id].quantity
    ensures FirstLineRejection(items, [LineRequest(id, q1), LineRequest(id, q2)]).None?
  {
    var lines := [LineRequest(id, q1), LineRequest(id, q2)];
    assert LineRejection(items, lines[0]).None? && LineRejection(items, lines[1]).None?;
  }

  /** The lines' rejection is that of the first refused line: when the
      lines before `i` pass and line `i` is refused, its error is the one
      reported. */
  lemma {:induction false} FirstRejectionAt(items: map<Id, StoreItem>, lines: seq<LineRequest>, i: nat)
    requires i < |lines| && LineRejection(items, lines[i]).Some?
    requires forall j :: 0 <= j < i ==> LineRejection(items, lines[j]).None?
    ensures FirstLineRejection(items, lines) == LineRejection(items, lines[i])
  {
    var init := lines[..|lines| - 1];
    assert forall j :: 0 <= j < |init| ==> init[j] == lines[j];
    if i < |lines| - 1 {
      FirstRejectionAt(items, init, i);
    }
  }

  /** One more accepted line extends the snapshot and its total. */
  lemma SnapshotStep(items: map<Id, StoreItem>, lines: seq<LineRequest>, i: nat)
    requires i < |lines| && AllListed(items, lines[..i]) && lines[i].storeItemId in items
    ensures AllListed(items, lines[..i + 1])
    ensures Snapshots(items, lines[..i + 1]) == Snapshots(items, lines[..i]) + [Snapshot(items, lines[i])]
  {
    assert lines[..i + 1] == lines[..i] + [lines[i]];
    assert lines[..i + 1][..i] == lines[..i];
  }

  /** The snapshots of the first n lines, in order. */
  function SnapshotsUpTo(items: map<Id, StoreItem>, lines: seq<LineRequest>, n: nat): seq<PurchaseItem>
    requires n <= |lines| && forall j :: 0 <= j < n ==> lines[j].storeItemId in items
  {
    if n == 0 then [] else SnapshotsUpTo(items, lines, n - 1) + [Snapshot(items, lines[n - 1])]
  }

  /** Snapshotting the first n lines is snapshotting the prefix of length n. */
  lemma {:induction false} SnapshotsUpToPrefix(items: map<Id, StoreItem>, lines: seq<LineRequest>, n: nat)
    requires n <= |lines| && forall j :: 0 <= j < n ==> lines[j].storeItemId in items
    ensures AllListed(items, lines[..n]) && SnapshotsUpTo(items, lines, n) == Snapshots(items, lines[..n])
  {
    if n > 0 {
      SnapshotsUpToPrefix(items, lines, n - 1);
      SnapshotStep(items, lines, n - 1);
    }
  }

  /** Once every line has passed, the accumulated snapshots are those of
      the whole order. */
  lemma AllLinesPriced(items: map<Id, StoreItem>, lines: seq<LineRequest>)
    requires forall j :: 0 <= j < |lines| ==> LineRejection(items, lines[j]).None? && lines[j].storeItemId in items
    ensures FirstLineRejection(items, lines).None? && AllListed(items, lines)
    ensures SnapshotsUpTo(items, lines, |lines|) == Snapshots(items, lines)
  {
    SnapshotsUpToPrefix(items, lines, |lines|);
    assert lines[..|lines|] == lines;
  }

  /** The PENDING purchase recorded for an accepted checkout. */
  function PendingPurchase(id: Id, clientId: Id, dto: CreatePurchaseDto, items: map<Id, StoreItem>, reference: string): (p: Purchase)
    requires AllListed(items, dto.items)
  {
    var lines := Snapshots(items, dto.items);
    Purchase(id, clientId, LinesTotal(lines), dto.deliveryOption, dto.deliveryAddress, reference, false, PENDING, lines)
  }

  /** A recorded pending purchase: unpaid, its total the order value, one
      line per requested line carrying the item's price at checkout time. */
  lemma PendingPurchaseShape(id: Id, clientId: Id, dto: CreatePurchaseDto, items: map<Id, StoreItem>, reference: string)
    requires AllListed(items, dto.items) && ValidPurchaseDto(dto)
    ensures var p := PendingPurchase(id, clientId, dto, items, reference);
            && p.status == PENDING && !p.paymentVerified
            && p.totalAmount == OrderValue(items, dto.items)
            && |p.items| == |dto.items|
            && (forall i :: 0 <= i < |p.items| ==>
                  && p.items[i].storeItemId == dto.items[i].storeItemId
                  && p.items[i].quantity == dto.items[i].quantity
                  && p.items[i].unitPrice == items[dto.items[i].storeItemId].price)
            && PurchaseWellFormed(p, items.Keys)
  {
    SnapshotTotalIsOrderValue(items, dto.items);
  }

  /** The transaction `createPurchase` opens: the total in kobo, the
      purchase's reference, and metadata tagged 'store_purchase'. */
  function StoreInitRequest(client: Client, p: Purchase): InitRequest {
    InitRequest(client.email, ConvertToKobo(p.totalAmount as real), p.paymentReference,
      Metadata(Some("store_purchase"), Some(p.clientId), Some(p.id), None, Some(p.deliveryOption)))
  }

  /** The gateway is asked for exactly the order total, and the metadata
      routes the payment back to this purchase. */
  lemma StoreChargeIsTotal(client: Client, p: Purchase)
    ensures StoreInitRequest(client, p).amount == 100 * p.totalAmount
    ensures StoreInitRequest(client, p).metadata.purchaseId == Some(p.id)
    ensures StoreInitRequest(client, p).reference == p.paymentReference
  {
    KoboOfWholeNaira(p.totalAmount);
  }

  /** Recording or replacing a well-formed purchase under its own id keeps
      the purchase table well-formed. */
  lemma AddPurchaseKeepsTable(purchases: map<Id, Purchase>, itemIds: set<Id>, p: Purchase)
    requires PurchaseTable(purchases, itemIds) && PurchaseWellFormed(p, itemIds)
    ensures PurchaseTable(purchases[p.id := p], itemIds)
  {
  }

  /** Recording the pending purchase of an accepted order keeps the purchase
      table well-formed. */
  lemma AddPendingKeepsTable(purchases: map<Id, Purchase>, items: map<Id, StoreItem>, id: Id, clientId: Id,
                             dto: CreatePurchaseDto, reference: string)
    requires PurchaseTable(purchases, items.Keys) && AllListed(items, dto.items) && ValidPurchaseDto(dto)
    ensures PurchaseTable(purchases[id := PendingPurchase(id, clientId, dto, items, reference)], items.Keys)
  {
    PendingPurchaseShape(id, clientId, dto, items, reference);
    AddPurchaseKeepsTable(purchases, items.Keys, PendingPurchase(id, clientId, dto, items, reference));
  }

  datatype Checkout = Checkout(purchase: Purchase, payment: PaymentHandles)

  datatype Priced = Priced(lines: seq<PurchaseItem>, total: int)

  /** The three checks `createPurchase` makes on one requested line, in
      order: the item exists, is active, and has enough stock. */
  method CheckLine(items: map<Id, StoreItem>, line: LineRequest) returns (r: Result<StoreItem>)
    ensures r.Err? <==> LineRejection(items, line).Some?
    ensures r.Err? ==> r.error == LineRejection(items, line).value
    ensures r.Ok? ==> line.storeItemId in items && r.value == items[line.storeItemId]
  {
    if line.storeItemId !in items {
      return Err(ItemNotFound(line.storeItemId));
    }
    var storeItem := items[line.storeItemId];
    if !storeItem.isActive {
      return Err(ItemUnavailable(storeItem.name));
    }
    if storeItem.quantity < line.quantity {
      return Err(InsufficientStock(storeItem.name, storeItem.quantity));
    }
    return Ok(storeItem);
  }

  /** The loop of `createPurchase`: checks each requested line in order,
      stopping at the first refused one, and accumulates the snapshotted
      lines and the running total. */
  method PriceLines(items: map<Id, StoreItem>, lines: seq<LineRequest>) returns (r: Result<Priced>)
    ensures FirstLineRejection(items, lines).Some? ==> r == Err(FirstLineRejection(items, lines).value)
    ensures FirstLineRejection(items, lines).None? ==>
              AllListed(items, lines) && r == Ok(Priced(Snapshots(items, lines), LinesTotal(Snapshots(items, lines))))
  {
    var totalAmount := 0;
    var purchaseItems: seq<PurchaseItem> := [];
    var i := 0;
    while i < |lines|
      invariant 0 <= i <= |lines|
      invariant forall j :: 0 <= j < i ==> LineRejection(items, lines[j]).None? && lines[j].storeItemId in items
      invariant purchaseItems == SnapshotsUpTo(items, lines, i)
      invariant totalAmount == LinesTotal(purchaseItems)
    {
      var line := lines[i];
      var checked := CheckLine(items, line);
      if checked.Err? {
        FirstRejectionAt(items, lines, i);
        return Err(checked.error);
      }
      var storeItem := checked.value;
      var itemTotal := storeItem.price * line.quantity;
      totalAmount := totalAmount + itemTotal;
      var snapshot := PurchaseItem(line.storeItemId, line.quantity, storeItem.price, itemTotal);
      LinesTotalAppend(purchaseItems, snapshot);
      purchaseItems := purchaseItems + [snapshot];
      i := i + 1;
    }
    AllLinesPriced(items, lines);
    return Ok(Priced(purchaseItems, totalAmount));
  }

  /** The part of `createPurchase` after the client checks: price the
      lines, record the PENDING purchase, then open the payment. A refused
      line records nothing; a gateway failure is reported while the purchase
      stays. */
  method OpenPurchase(db: Database, gw: Gateway, client: Client, dto: CreatePurchaseDto, purchaseId: Id, now: nat, token: string)
    returns (r: Result<Checkout>)
    requires db.Valid() && ValidPurchaseDto(dto) && purchaseId !in db.purchases
    modifies db
    ensures db.Valid()
    ensures db.clients == old(db.clients) && db.admins == old(db.admins) && db.storeItems == old(db.storeItems)
    ensures var rejection := FirstLineRejection(old(db.storeItems), dto.items);
            rejection.Some? ==> r == Err(rejection.value) && db.purchases == old(db.purchases)
    ensures FirstLineRejection(old(db.storeItems), dto.items).None? ==>
              && AllListed(old(db.storeItems), dto.items)
              && var p := PendingPurchase(purchaseId, client.id, dto, old(db.storeItems), GenerateReference("purchase", now, token));
                 var init := InitializeTransaction(gw, StoreInitRequest(client, p));
                 && db.purchases == old(db.purchases)[purchaseId := p]
                 && (init.Err? ==> r == Err(init.error))
                 && (init.Ok? ==> r == Ok(Checkout(p, HandlesOf(init.value))))
  {
    var storeItems := db.storeItems;
    var priced :- PriceLines(storeItems, dto.items);
    var reference := GenerateReference("purchase", now, token);
    var purchase := Purchase(purchaseId, client.id, priced.total, dto.deliveryOption, dto.deliveryAddress,
                             reference, false, PENDING, priced.lines);
    assert purchase == PendingPurchase(purchaseId, client.id, dto, storeItems, reference);
    assert PurchaseTable(db.purchases, storeItems.Keys);
    AddPendingKeepsTable(db.purchases, storeItems, purchaseId, client.id, dto, reference);
    db.purchases := db.purchases[purchaseId := purchase];

    var init := InitializeTransaction(gw, StoreInitRequest(client, purchase));
    if init.Err? {
      return Err(init.error);
    }
    return Ok(Checkout(purchase, HandlesOf(init.value)));
  }

  /** `createPurchase`: any rejection leaves the tables unchanged; otherwise
      the PENDING purchase is recorded and only then is the payment opened,
      so a gateway failure is reported while the purchase stays. Stock is
      never touched. */
  method CreatePurchase(db: Database, gw: Gateway, clientId: Id, dto: CreatePurchaseDto, purchaseId: Id, now: nat, token: string)
    returns (r: Result<Checkout>)
    requires db.Valid() && ValidPurchaseDto(dto) && purchaseId !in db.purchases
    modifies db
    ensures db.Valid()
    ensures db.clients == old(db.clients) && db.admins == old(db.admins) && db.storeItems == old(db.storeItems)
    ensures var rejection := CheckoutRejection(old(db.clients), old(db.storeItems), clientId, dto);
            rejection.Some? ==> r == Err(rejection.value) && db.purchases == old(db.purchases)
    ensures var rejection := CheckoutRejection(old(db.clients), old(db.storeItems), clientId, dto);
            rejection.None? ==>
              var p := PendingPurchase(purchaseId, clientId, dto, old(db.storeItems), GenerateReference("purchase", now, token));
              var init := InitializeTransaction(gw, StoreInitRequest(old(db.clients)[clientId], p));
              && db.purchases == old(db.purchases)[purchaseId := p]
              && (init.Err? ==> r == Err(init.error))
              && (init.Ok? ==> r == Ok(Checkout(p, HandlesOf(init.value))))
  {
    if clientId !in db.clients {
      return Err(ClientNotFound);
    }
    var client := db.clients[clientId];
    if client.membershipStatus != ACTIVE {
      return Err(MembershipRequired);
    }
    if dto.deliveryOption == DELIVERY && !Truthy(dto.deliveryAddress) {
      return Err(AddressRequired);
    }
    assert client.id == clientId;
    r := OpenPurchase(db, gw, client, dto, purchaseId, now, token);
  }

  // ---- verifying a purchase ----

  const VerificationFailed := BadRequest("Payment verification failed")
  const InvalidMetadata := BadRequest("Invalid payment metadata")
  const PurchaseNotFound := NotFound("Purchase not found")
  const AlreadyVerified := BadRequest("Purchase already verified")
  const PurchaseVerifiedMessage := "Purchase verified successfully"

  /** `data.metadata?.purchase_id`. */
  function MetadataPurchaseId(reply: VerifyResponse): Option<string> {
    if reply.data.metadata.Some? then reply.data.metadata.value.purchaseId else None
  }

  datatype PendingVerification = PendingVerification(reply: VerifyResponse, purchaseId: Id, purchase: Purchase)

  /** The checks `verifyPurchase` makes before writing, in order: the gateway
      call, the charge status, the purchase id in the metadata, the purchase
      itself, and whether it was already verified. */
  function PurchaseToVerify(gw: Gateway, purchases: map<Id, Purchase>, reference: string): (r: Result<PendingVerification>)
    ensures gw.getVerify(reference).None? ==> r == Err(BadRequest(VerifyFailedMessage))
    ensures r.Ok? ==>
              && gw.getVerify(reference) == Some(r.value.reply)
              && ChargeSucceeded(r.value.reply)
              && MetadataPurchaseId(r.value.reply) == Some(r.value.purchaseId)
              && r.value.purchaseId in purchases
              && purchases[r.value.purchaseId] == r.value.purchase
              && !r.value.purchase.paymentVerified
    ensures r.Ok? <==>
              var reply := gw.getVerify(reference);
              && reply.Some? && ChargeSucceeded(reply.value)
              && Truthy(MetadataPurchaseId(reply.value))
              && MetadataPurchaseId(reply.value).value in purchases
              && !purchases[MetadataPurchaseId(reply.value).value].paymentVerified
    ensures r.Err? ==> r.error in {BadRequest(VerifyFailedMessage), VerificationFailed, InvalidMetadata, PurchaseNotFound, AlreadyVerified}
  {
    var reply :- VerifyTransaction(gw, reference);
    if !ChargeSucceeded(reply) then Err(VerificationFailed)
    else
      var purchaseId := MetadataPurchaseId(reply);
      if !Truthy(purchaseId) then Err(InvalidMetadata)
      else if purchaseId.value !in purchases then Err(PurchaseNotFound)
      else if purchases[purchaseId.value].paymentVerified then Err(AlreadyVerified)
      else Ok(PendingVerification(reply, purchaseId.value, purchases[purchaseId.value]))
  }

  /** Each rejection of `verifyPurchase` and its cause. */
  lemma VerificationRejections(gw: Gateway, purchases: map<Id, Purchase>, reference: string)
    ensures var reply := gw.getVerify(reference);
            reply.Some? && !ChargeSucceeded(reply.value) ==> PurchaseToVerify(gw, purchases, reference) == Err(VerificationFailed)
    ensures var reply := gw.getVerify(reference);
            reply.Some? && ChargeSucceeded(reply.value) && !Truthy(MetadataPurchaseId(reply.value)) ==>
              PurchaseToVerify(gw, purchases, reference) == Err(InvalidMetadata)
    ensures var reply := gw.getVerify(reference);
            reply.Some? && ChargeSucceeded(reply.value) && Truthy(MetadataPurchaseId(reply.value))
            && MetadataPurchaseId(reply.value).value !in purchases ==>
              PurchaseToVerify(gw, purchases, reference) == Err(PurchaseNotFound)
    ensures var reply := gw.getVerify(reference);
            reply.Some? && ChargeSucceeded(reply.value) && Truthy(MetadataPurchaseId(reply.value))
            && MetadataPurchaseId(reply.value).value in purchases
            && purchases[MetadataPurchaseId(reply.value).value].paymentVerified ==>
              PurchaseToVerify(gw, purchases, reference) == Err(AlreadyVerified)
  {
  }

  function Completed(p: Purchase): Purchase {
    p.(status := COMPLETED, paymentVerified := true)
  }

  predicate LinesListed(items: map<Id, StoreItem>, lines: seq<PurchaseItem>) {
    forall i :: 0 <= i < |lines| ==> lines[i].storeItemId in items
  }

  /** The stock after `decrement: quantity` for each line in turn. */
  function ApplyDecrements(items: map<Id, StoreItem>, lines: seq<PurchaseItem>): (r: map<Id, StoreItem>)
    requires LinesListed(items, lines)
    ensures r.Keys == items.Keys
  {
    if lines == [] then items
    else
      var init := lines[..|lines| - 1];
      assert LinesListed(items, init) by {
        forall i | 0 <= i < |init| ensures init[i].storeItemId in items {
          assert init[i] == lines[i];
        }
      }
      var prev := ApplyDecrements(items, init);
      var l := lines[|lines| - 1];
      prev[l.storeItemId := prev[l.storeItemId].(quantity := prev[l.storeItemId].quantity - l.quantity)]
  }

  /** Total quantity of item `k` across the lines. */
  function OrderedQuantity(lines: seq<PurchaseItem>, k: Id): int {
    if lines == [] then 0
    else OrderedQuantity(lines[..|lines| - 1], k) + (if lines[|lines| - 1].storeItemId == k then lines[|lines| - 1].quantity else 0)
  }

  /** Each item's stock drops by exactly the quantity ordered of it, with no
      floor at zero; nothing else about the item changes. */
  lemma {:induction false} DecrementsExact(items: map<Id, StoreItem>, lines: seq<PurchaseItem>, k: Id)
    requires LinesListed(items, lines) && k in items
    ensures ApplyDecrements(items, lines)[k] == items[k].(quantity := items[k].quantity - OrderedQuantity(lines, k))
  {
    if lines != [] {
      var init := lines[..|lines| - 1];
      assert LinesListed(items, init) by {
        forall i | 0 <= i < |init| ensures init[i].storeItemId in items {
          assert init[i] == lines[i];
        }
      }
      DecrementsExact(items, init, k);
    }
  }

  /** Items no line names keep their stock. */
  lemma {:induction false} UnorderedItemsUnchanged(items: map<Id, StoreItem>, lines: seq<PurchaseItem>, k: Id)
    requires LinesListed(items, lines) && k in items
    requires forall i :: 0 <= i < |lines| ==> lines[i].storeItemId != k
    ensures ApplyDecrements(items, lines)[k] == items[k]
  {
    NotOrderedIsZero(lines, k);
    DecrementsExact(items, lines, k);
  }

  lemma {:induction false} NotOrderedIsZero(lines: seq<PurchaseItem>, k: Id)
    requires forall i :: 0 <= i < |lines| ==> lines[i].storeItemId != k
    ensures OrderedQuantity(lines, k) == 0
  {
    if lines != [] {
      var init := lines[..|lines| - 1];
      assert forall i :: 0 <= i < |init| ==> init[i] == lines[i];
      NotOrderedIsZero(init, k);
    }
  }

  /** The state change `verifyPurchase` makes: none when a check fails;
      otherwise the purchase is completed and the stock of its lines
      decremented. */
  ghost predicate VerifyEffect(
    gw: Gateway, reference: string,
    purchases0: map<Id, Purchase>, items0: map<Id, StoreItem>,
    purchases1: map<Id, Purchase>, items1: map<Id, StoreItem>)
    requires PurchaseTable(purchases0, items0.Keys)
  {
    var c := PurchaseToVerify(gw, purchases0, reference);
    if c.Err? then purchases1 == purchases0 && items1 == items0
    else
      && purchases1 == purchases0[c.value.purchaseId := Completed(c.value.purchase)]
      && items1 == ApplyDecrements(items0, c.value.purchase.items)
  }

  /** Verification is one-shot: once a purchase is completed, verifying the
      same reference again is refused and changes nothing. */
  lemma VerificationIsOneShot(gw: Gateway, purchases: map<Id, Purchase>, items: map<Id, StoreItem>, reference: string)
    requires PurchaseTable(purchases, items.Keys)
    requires PurchaseToVerify(gw, purchases, reference).Ok?
    ensures var c := PurchaseToVerify(gw, purchases, reference).value;
            var purchases1 := purchases[c.purchaseId := Completed(c.purchase)];
            && PurchaseToVerify(gw, purchases1, reference) == Err(AlreadyVerified)
            && forall p2, i2 :: VerifyEffect(gw, reference, purchases1, items, p2, i2) ==> p2 == purchases1 && i2 == items
  {
    var c := PurchaseToVerify(gw, purchases, reference).value;
    assert PurchaseWellFormed(Completed(c.purchase), items.Keys);
  }

  /** Completing a purchase keeps the purchase table well-formed, and its
      lines name listed items. */
  lemma CompletingKeepsTable(purchases: map<Id, Purchase>, items: map<Id, StoreItem>, id: Id)
    requires PurchaseTable(purchases, items.Keys) && id in purchases
    ensures PurchaseTable(purchases[id := Completed(purchases[id])], items.Keys)
    ensures LinesListed(items, Completed(purchases[id]).items)
  {
    assert PurchaseWellFormed(Completed(purchases[id]), items.Keys);
  }

  /** One more decremented line. */
  lemma DecrementStep(items: map<Id, StoreItem>, lines: seq<PurchaseItem>, i: nat)
    requires LinesListed(items, lines) && i < |lines|
    ensures LinesListed(items, lines[..i]) && LinesListed(items, lines[..i + 1])
    ensures var prev := ApplyDecrements(items, lines[..i]);
            var l := lines[i];
            && l.storeItemId in prev
            && ApplyDecrements(items, lines[..i + 1]) == prev[l.storeItemId := prev[l.storeItemId].(quantity := prev[l.storeItemId].quantity - l.quantity)]
  {
    assert lines[..i + 1][..i] == lines[..i];
  }

  /** Decrementing stock keeps every row under its own id. */
  lemma DecrementsKeepItemTable(items: map<Id, StoreItem>, lines: seq<PurchaseItem>)
    requires ItemTable(items) && LinesListed(items, lines)
    ensures ItemTable(ApplyDecrements(items, lines))
  {
    var r := ApplyDecrements(items, lines);
    forall k | k in r ensures r[k].id == k {
      DecrementsExact(items, lines, k);
    }
  }

  /** The loop of `verifyPurchase`: one stock decrement per purchase line,
      in order. */
  method DecrementStock(db: Database, lines: seq<PurchaseItem>)
    requires LinesListed(db.storeItems, lines)
    modifies db
    ensures db.storeItems == ApplyDecrements(old(db.storeItems), lines)
    ensures db.clients == old(db.clients) && db.admins == old(db.admins) && db.purchases == old(db.purchases)
  {
    var i := 0;
    while i < |lines|
      invariant 0 <= i <= |lines|
      invariant db.clients == old(db.clients) && db.admins == old(db.admins) && db.purchases == old(db.purchases)
      invariant db.storeItems == ApplyDecrements(old(db.storeItems), lines[..i])
    {
      var line := lines[i];
      DecrementStep(old(db.storeItems), lines, i);
      var item := db.storeItems[line.storeItemId];
      db.storeItems := db.storeItems[line.storeItemId := item.(quantity := item.quantity - line.quantity)];
      i := i + 1;
    }
    assert lines[..i] == lines;
  }

  datatype VerifiedPurchase = VerifiedPurchase(message: string, purchase: Purchase, payment: PaymentSummary)

  /** `verifyPurchase`. Sending the confirmation e-mails is outside this
      model; their failures are caught and never change the outcome. */
  method VerifyPurchase(db: Database, gw: Gateway, reference: string) returns (r: Result<VerifiedPurchase>)
    requires db.Valid()
    modifies db
    ensures db.Valid()
    ensures db.clients == old(db.clients) && db.admins == old(db.admins)
    ensures VerifyEffect(gw, reference, old(db.purchases), old(db.storeItems), db.purchases, db.storeItems)
    ensures var c := PurchaseToVerify(gw, old(db.purchases), reference);
            && (c.Err? ==> r == Err(c.error))
            && (c.Ok? ==> r == Ok(VerifiedPurchase(PurchaseVerifiedMessage, Completed(c.value.purchase), SummaryOf(c.value.reply))))
  {
    var check := PurchaseToVerify(gw, db.purchases, reference);
    if check.Err? {
      return Err(check.error);
    }
    var updated := Completed(check.value.purchase);
    assert PurchaseTable(db.purchases, db.storeItems.Keys) && ItemTable(db.storeItems);
    CompletingKeepsTable(db.purchases, db.storeItems, check.value.purchaseId);
    db.purchases := db.purchases[check.value.purchaseId := updated];
    ghost var items0 := db.storeItems;
    DecrementStock(db, updated.items);
    DecrementsKeepItemTable(items0, updated.items);
    return Ok(VerifiedPurchase(PurchaseVerifiedMessage, updated, SummaryOf(check.value.reply)));
  }

  /** `findOnePurchase`. */
  function FindOnePurchase(purchases: map<Id, Purchase>, id: Id): (r: Result<Purchase>)
    ensures r.Ok? <==> id in purchases
    ensures r.Ok? ==> r.value == purchases[id]
    ensures r.Err? ==> r.error == PurchaseNotFound
  {
    if id in purchases then Ok(purchases[id]) else Err(PurchaseNotFound)
  }

  /** `handleWebhook`: only a 'charge.success' event tagged 'store_purchase'
      leads to a verification, whose errors are swallowed; an event without
      `data` fails. */
  method HandleWebhook(db: Database, gw: Gateway, ev: WebhookEvent) returns (r: Result<()>)
    requires db.Valid()
    modifies db
    ensures db.Valid()
    ensures db.clients == old(db.clients) && db.admins == old(db.admins)
    ensures var a := WebhookActionFor(ev, "store_purchase");
            && (a.Malformed? ==> r == Err(Internal(DestructureMessage)))
            && (!a.Malformed? ==> r == Ok(()))
            && (!a.VerifyReference? ==> db.purchases == old(db.purchases) && db.storeItems == old(db.storeItems))
            && (a.VerifyReference? ==> VerifyEffect(gw, a.reference, old(db.purchases), old(db.storeItems), db.purchases, db.storeItems))
  {
    match WebhookActionFor(ev, "store_purchase")
    case Ignore =>
      return Ok(());
    case Malformed =>
      return Err(Internal(DestructureMessage));
    case VerifyReference(reference) =>
      var _ := VerifyPurchase(db, gw, reference);
      return Ok(());
  }
}
