/** The persisted entities (clients, admins, store items, purchases and their
    line items) and the database that holds them, one map per table keyed by
    the row's id. Timestamps are milliseconds since the epoch; store prices are
    whole naira. */
module Records {
  import opened Common

  datatype MembershipStatus = INACTIVE | ACTIVE | EXPIRED

  datatype DeliveryOption = PICKUP | DELIVERY

  datatype PurchaseStatus = PENDING | COMPLETED

  /** A row of the client table, password hash included. */
  datatype Client = Client(
    id: Id,
    email: string,
    password: string,
    firstName: string,
    lastName: string,
    profileImage: Option<string>,
    qrCodeUrl: Option<string>,
    membershipStatus: MembershipStatus,
    membershipPaidDate: Option<int>,
    membershipDueDate: Option<int>,
    membershipLastPaidAmount: Option<real>,
    membershipPaymentRef: Option<string>)

  /** A client row as it leaves the service: every column except the password. */
  datatype ClientView = ClientView(
    id: Id,
    email: string,
    firstName: string,
    lastName: string,
    profileImage: Option<string>,
    qrCodeUrl: Option<string>,
    membershipStatus: MembershipStatus,
    membershipPaidDate: Option<int>,
    membershipDueDate: Option<int>,
    membershipLastPaidAmount: Option<real>,
    membershipPaymentRef: Option<string>)

  /** `const { password, ...rest } = client`. */
  function View(c: Client): ClientView {
    ClientView(c.id, c.email, c.firstName, c.lastName, c.profileImage, c.qrCodeUrl,
               c.membershipStatus, c.membershipPaidDate, c.membershipDueDate,
               c.membershipLastPaidAmount, c.membershipPaymentRef)
  }

  /** Stripping the password forgets the password and nothing else: two rows
      have the same view exactly when they differ at most in the password. */
  lemma ViewForgetsOnlyPassword(a: Client, b: Client)
    ensures View(a) == View(b) <==> a == b.(password := a.password)
  {
  }

  /** A row of the admin table (the columns this model uses). */
  datatype Admin = Admin(id: Id, email: string, password: string)

  datatype AdminView = AdminView(id: Id, email: string)

  function AdminViewOf(a: Admin): AdminView {
    AdminView(a.id, a.email)
  }

  datatype StoreItem = StoreItem(
    id: Id,
    name: string,
    description: Option<string>,
    price: int,
    quantity: int,
    isActive: bool,
    imageUrl: Option<string>)

  /** One line of a purchase: the item, the quantity, and the price snapshot
      taken when the purchase was created. */
  datatype PurchaseItem = PurchaseItem(storeItemId: Id, quantity: int, unitPrice: int, totalPrice: int)

  datatype Purchase = Purchase(
    id: Id,
    clientId: Id,
    totalAmount: int,
    deliveryOption: DeliveryOption,
    deliveryAddress: Option<string>,
    paymentReference: string,
    paymentVerified: bool,
    status: PurchaseStatus,
    items: seq<PurchaseItem>)

  /** Sum of the line totals. */
  function LinesTotal(lines: seq<PurchaseItem>): int {
    if lines == [] then 0 else LinesTotal(lines[..|lines| - 1]) + lines[|lines| - 1].totalPrice
  }

  /** Appending a line adds its total. */
  lemma LinesTotalAppend(lines: seq<PurchaseItem>, l: PurchaseItem)
    ensures LinesTotal(lines + [l]) == LinesTotal(lines) + l.totalPrice
  {
    assert (lines + [l])[..|lines|] == lines;
  }

  // ---- table invariants (primary keys, unique e-mails, foreign keys) ----

  predicate EmailTaken(t: map<Id, Client>, email: string) {
    exists k :: k in t && t[k].email == email
  }

  predicate ClientTable(t: map<Id, Client>) {
    && (forall k :: k in t ==> t[k].id == k)
    && (forall a, b :: a in t && b in t && t[a].email == t[b].email ==> a == b)
  }

  predicate AdminTable(t: map<Id, Admin>) {
    && (forall k :: k in t ==> t[k].id == k)
    && (forall a, b :: a in t && b in t && t[a].email == t[b].email ==> a == b)
  }

  predicate ItemTable(t: map<Id, StoreItem>) {
    forall k :: k in t ==> t[k].id == k
  }

  predicate LineWellFormed(l: PurchaseItem, itemIds: set<Id>) {
    && l.storeItemId in itemIds
    && l.quantity >= 1
    && l.totalPrice == l.unitPrice * l.quantity
  }

  /** A purchase is verified exactly when it is completed, its total is the
      sum of its lines, and every line names an existing store item. */
  predicate PurchaseWellFormed(p: Purchase, itemIds: set<Id>) {
    && (p.paymentVerified <==> p.status == COMPLETED)
    && p.totalAmount == LinesTotal(p.items)
    && forall i :: 0 <= i < |p.items| ==> LineWellFormed(p.items[i], itemIds)
  }

  predicate PurchaseTable(t: map<Id, Purchase>, itemIds: set<Id>) {
    forall k :: k in t ==> t[k].id == k && PurchaseWellFormed(t[k], itemIds)
  }

  /** Rewriting a client row under its own id, e-mail unchanged, keeps the
      client table keyed and its e-mails unique. */
  lemma ReplaceClientKeepsTable(t: map<Id, Client>, id: Id, c: Client)
    requires ClientTable(t) && id in t && c.id == id && c.email == t[id].email
    ensures ClientTable(t[id := c])
  {
  }

  /** `findUnique({ where: { email } })` on the client table. */
  function ClientByEmail(t: map<Id, Client>, email: string): (r: Option<Client>)
    requires ClientTable(t)
    ensures r.Some? <==> EmailTaken(t, email)
    ensures r.Some? ==> r.value.id in t && t[r.value.id] == r.value && r.value.email == email
  {
    if EmailTaken(t, email) then
      var k :| k in t && t[k].email == email; Some(t[k])
    else None
  }

  /** `findUnique({ where: { email } })` on the admin table. */
  function AdminByEmail(t: map<Id, Admin>, email: string): (r: Option<Admin>)
    requires AdminTable(t)
    ensures r.Some? <==> exists k :: k in t && t[k].email == email
    ensures r.Some? ==> r.value.id in t && t[r.value.id] == r.value && r.value.email == email
  {
    if exists k :: k in t && t[k].email == email then
      var k :| k in t && t[k].email == email; Some(t[k])
    else None
  }

  /** The database: the four tables the services read and write. */
  class Database {
    var clients: map<Id, Client>
    var admins: map<Id, Admin>
    var storeItems: map<Id, StoreItem>
    var purchases: map<Id, Purchase>

    ghost predicate Valid()
      reads this
    {
      && ClientTable(clients)
      && AdminTable(admins)
      && ItemTable(storeItems)
      && PurchaseTable(purchases, storeItems.Keys)
    }

    constructor ()
      ensures Valid()
      ensures clients == map[] && admins == map[] && storeItems == map[] && purchases == map[]
    {
      clients, admins, storeItems, purchases := map[], map[], map[], map[];
    }
  }
}
