/** ClientService: sign-up, the paginated client list, profile reads and
    updates with their ownership rule, the admin membership toggles, removal,
    and a client's purchase history. Password hashing and token signing go
    through AuthService's `Crypto`; the file upload and the QR-code upload
    are outcomes given as parameters. */
module ClientService {
  import opened Common
  import opened Records
  import opened AuthService

  const ClientNotFound := NotFound("Client not found")
  const EmailRegistered := Conflict("Email already registered")
  const QrCodeFailedMessage := "Failed to generate QR code"
  const NotOwnProfile := Forbidden("You can only update your own profile")
  const NotOwnPurchases := Forbidden("You can only view your own purchases")
  const ClientDeletedMessage := "Client deleted successfully"

  /** The caller may act on client `id`: an admin, or that client itself. */
  predicate MayActOn(currentUserId: Id, userType: string, id: Id) {
    userType == "admin" || currentUserId == id
  }

  /** The columns the profile endpoints select: no password, no payment
      bookkeeping. */
  datatype ClientProfile = ClientProfile(
    id: Id, email: string, firstName: string, lastName: string,
    profileImage: Option<string>, qrCodeUrl: Option<string>,
    membershipStatus: MembershipStatus, membershipPaidDate: Option<int>, membershipDueDate: Option<int>)

  function Profile(c: Client): ClientProfile {
    ClientProfile(c.id, c.email, c.firstName, c.lastName, c.profileImage, c.qrCodeUrl,
                  c.membershipStatus, c.membershipPaidDate, c.membershipDueDate)
  }

  // ---- sign-up ----

  /** `CreateClientDto`; `profileImage` may also arrive as a plain form field. */
  datatype CreateClientDto = CreateClientDto(
    email: string, password: string, firstName: string, lastName: string, profileImage: Option<string>)

  /** The image a new or updated row ends up with: an uploaded URL when it
      is truthy, otherwise whatever the DTO's own field says. */
  function ChosenImage(uploaded: Option<string>, fromDto: Option<string>): (img: Option<string>)
    ensures Truthy(uploaded) ==> img == uploaded
    ensures !Truthy(uploaded) ==> img == fromDto
  {
    if Truthy(uploaded) then uploaded else fromDto
  }

  /** The row `client.create` writes: the DTO's fields with the password
      replaced by its hash, membership INACTIVE and nothing paid yet. */
  function NewClient(id: Id, dto: CreateClientDto, hashed: string, uploaded: Option<string>): Client {
    Client(id, dto.email, hashed, dto.firstName, dto.lastName, ChosenImage(uploaded, dto.profileImage),
           None, INACTIVE, None, None, None, None)
  }

  datatype SignedUp = SignedUp(accessToken: string, client: ClientView)

  /** `signup`: Conflict for a registered e-mail and an upload failure both
      leave the table unchanged. Otherwise the client is created, then its QR
      code attached; when the QR code cannot be produced the call fails with
      the client already created. On success the reply carries a token over
      {sub: id, email, type: 'client'} and the stored row without its
      password. */
  method Signup(db: Database, crypto: Crypto, dto: CreateClientDto, image: Upload, qrCodeUrl: Option<string>, newId: Id)
    returns (r: Result<SignedUp>)
    requires db.Valid() && newId !in db.clients
    modifies db
    ensures db.Valid()
    ensures db.admins == old(db.admins) && db.storeItems == old(db.storeItems) && db.purchases == old(db.purchases)
    ensures EmailTaken(old(db.clients), dto.email) ==> r == Err(EmailRegistered) && db.clients == old(db.clients)
    ensures !EmailTaken(old(db.clients), dto.email) && image.UploadFailed? ==>
              r == Err(Internal(UploadFailedMessage)) && db.clients == old(db.clients)
    ensures !EmailTaken(old(db.clients), dto.email) && !image.UploadFailed? ==>
              var created := NewClient(newId, dto, HashPassword(crypto, dto.password), UploadUrl(image).value);
              && (qrCodeUrl.None? ==>
                    r == Err(Internal(QrCodeFailedMessage)) && db.clients == old(db.clients)[newId := created])
              && (qrCodeUrl.Some? ==>
                    var stored := created.(qrCodeUrl := qrCodeUrl);
                    && db.clients == old(db.clients)[newId := stored]
                    && r == Ok(SignedUp(crypto.sign(JwtPayload(newId, dto.email, "client")), View(stored))))
  {
    if EmailTaken(db.clients, dto.email) {
      return Err(EmailRegistered);
    }
    var profileImageUrl :- UploadUrl(image);
    var hashedPassword := HashPassword(crypto, dto.password);
    var client := NewClient(newId, dto, hashedPassword, profileImageUrl);
    db.clients := db.clients[newId := client];
    if qrCodeUrl.None? {
      return Err(Internal(QrCodeFailedMessage));
    }
    var updated := client.(qrCodeUrl := qrCodeUrl);
    ReplaceClientKeepsTable(db.clients, newId, updated);
    db.clients := db.clients[newId := updated];
    var token := GenerateToken(crypto, JwtPayload(client.id, client.email, "client"));
    return Ok(SignedUp(token, View(updated)));
  }

  /** A signed-up client starts with no membership, its password stored
      only as the hash, and an uploaded image taking precedence over the
      form field. */
  lemma NewClientShape(id: Id, dto: CreateClientDto, hashed: string, uploaded: Option<string>)
    ensures var c := NewClient(id, dto, hashed, uploaded);
            && c.id == id && c.email == dto.email && c.password == hashed
            && c.membershipStatus == INACTIVE && c.membershipDueDate.None? && c.membershipPaidDate.None?
            && (Truthy(uploaded) ==> c.profileImage == uploaded)
            && (!Truthy(uploaded) ==> c.profileImage == dto.profileImage)
  {
  }

  // ---- the client list ----

  datatype PageInfo = PageInfo(total: nat, page: int, limit: int, totalPages: int)

  datatype Page<T> = Page(data: seq<T>, pagination: PageInfo)

  function Max(a: int, b: int): int {
    if a >= b then a else b
  }

  /** `n` capped at `len`, as `skip`/`take` cap a window at the end of the rows. */
  function Clamp(n: int, len: nat): nat {
    if n < 0 then 0 else if n <= len then n else len
  }

  /** `Math.ceil(total / size)` for a positive page size. */
  function TotalPages(total: nat, size: int): (t: nat)
    requires size >= 1
  {
    (total + size - 1) / size
  }

  /** The page count is the least t with total ≤ t × size. */
  lemma TotalPagesBounds(total: nat, size: int)
    requires size >= 1
    ensures var t := TotalPages(total, size);
            total <= t * size && (t == 0 || (t - 1) * size < total)
  {
    var t := TotalPages(total, size);
    var m := (total + size - 1) % size;
    assert total + size - 1 == t * size + m;
    MulStep(t, size);
  }

  /** The rows of one page: page and limit raised to at least 1, then
      `skip (page - 1) * limit` and `take limit`. */
  function PageRows<T>(rows: seq<T>, page: int, limit: int): seq<T> {
    var skip := (Max(page, 1) - 1) * Max(limit, 1);
    rows[Clamp(skip, |rows|)..Clamp(skip + Max(limit, 1), |rows|)]
  }

  /** The page and page size `findAll` takes when the query leaves them out. */
  const DefaultPage := 1
  const DefaultLimit := 10

  /** `findAll(page, limit)` over the rows in list order: an absent page or
      limit defaults to 1 or 10, both are raised to at least 1, then
      `skip (page - 1) * limit`, `take limit`, and the number of pages
      rounded up. */
  function FindAll<T>(rows: seq<T>, page: Option<int>, limit: Option<int>): (r: Page<T>)
    ensures r.pagination.page == Max(page.GetOr(DefaultPage), 1) >= 1
    ensures r.pagination.limit == Max(limit.GetOr(DefaultLimit), 1) >= 1
    ensures page.None? ==> r.pagination.page == 1
    ensures limit.None? ==> r.pagination.limit == 10
    ensures r.pagination.total == |rows|
    ensures var skip := (r.pagination.page - 1) * r.pagination.limit;
            skip >= 0 && r.data == rows[Clamp(skip, |rows|)..Clamp(skip + r.pagination.limit, |rows|)]
    ensures r.pagination.totalPages == TotalPages(|rows|, r.pagination.limit)
  {
    var p := page.GetOr(DefaultPage);
    var l := limit.GetOr(DefaultLimit);
    Page(PageRows(rows, p, l), PageInfo(|rows|, Max(p, 1), Max(l, 1), TotalPages(|rows|, Max(l, 1))))
  }

  /** With neither page nor limit given, the list is the first ten rows and
      the page count is the number of blocks of ten, rounded up. */
  lemma DefaultQueryIsFirstTen<T>(rows: seq<T>)
    ensures var r := FindAll(rows, None, None);
            && r.data == rows[..Clamp(10, |rows|)]
            && r.pagination.totalPages * 10 >= |rows|
            && (r.pagination.totalPages == 0 || (r.pagination.totalPages - 1) * 10 < |rows|)
  {
    TotalPagesBounds(|rows|, 10);
  }

  /** Pages 1 to k, concatenated. */
  function FirstPages<T>(rows: seq<T>, limit: int, k: nat): seq<T> {
    if k == 0 then [] else FirstPages(rows, limit, k - 1) + PageRows(rows, k, limit)
  }

  lemma MulStep(k: int, l: int)
    ensures k * l == (k - 1) * l + l
  {
  }

  lemma MulMono(a: int, b: int, l: int)
    requires a >= b && l >= 0
    ensures a * l >= b * l
  {
  }

  /** Page k ≥ 1 is the window of rows from (k − 1) × limit to k × limit. */
  lemma PageWindow<T>(rows: seq<T>, limit: int, k: int)
    requires k >= 1
    ensures var l := Max(limit, 1);
            PageRows(rows, k, limit) == rows[Clamp((k - 1) * l, |rows|)..Clamp(k * l, |rows|)]
  {
    MulStep(k, Max(limit, 1));
  }

  lemma SliceJoin<T>(s: seq<T>, lo: nat, hi: nat)
    requires lo <= hi <= |s|
    ensures s[..lo] + s[lo..hi] == s[..hi]
  {
  }

  /** The first k pages are exactly the first k × limit rows. */
  lemma {:induction false} FirstPagesArePrefix<T>(rows: seq<T>, limit: int, k: nat)
    ensures FirstPages(rows, limit, k) == rows[..Clamp(k * Max(limit, 1), |rows|)]
  {
    if k > 0 {
      FirstPagesArePrefix(rows, limit, k - 1);
      var l := Max(limit, 1);
      MulMono(k, k - 1, l);
      PageWindow(rows, limit, k);
      SliceJoin(rows, Clamp((k - 1) * l, |rows|), Clamp(k * l, |rows|));
    }
  }

  /** Every page after the last one is empty. */
  lemma PageAfterLastIsEmpty<T>(rows: seq<T>, limit: int, p: int)
    requires p > TotalPages(|rows|, Max(limit, 1))
    ensures FindAll(rows, Some(p), Some(limit)).data == []
  {
    var l := Max(limit, 1);
    var t := TotalPages(|rows|, l);
    TotalPagesBounds(|rows|, l);
    MulMono(p - 1, t, l);
    MulMono(p, p - 1, l);
    PageWindow(rows, limit, p);
  }

  /** Walking the pages from 1 to `totalPages` lists every row exactly once,
      in order, and any page after the last is empty. */
  lemma PagesCoverAll<T>(rows: seq<T>, limit: int)
    ensures var pages := FindAll(rows, Some(1), Some(limit)).pagination.totalPages;
            && FirstPages(rows, limit, pages) == rows
            && forall p :: p > pages ==> FindAll(rows, Some(p), Some(limit)).data == []
  {
    var l := Max(limit, 1);
    var pages := TotalPages(|rows|, l);
    TotalPagesBounds(|rows|, l);
    FirstPagesArePrefix(rows, limit, pages);
    assert rows[..|rows|] == rows;
    forall p | p > pages ensures FindAll(rows, Some(p), Some(limit)).data == [] {
      PageAfterLastIsEmpty(rows, limit, p);
    }
  }

  // ---- profile reads and updates ----

  /** A client's purchases, keyed by purchase id. */
  function PurchasesOf(purchases: map<Id, Purchase>, clientId: Id): (r: map<Id, Purchase>)
    ensures forall k :: k in r <==> k in purchases && purchases[k].clientId == clientId
    ensures forall k :: k in r ==> r[k] == purchases[k]
  {
    map k | k in purchases && purchases[k].clientId == clientId :: purchases[k]
  }

  datatype ClientDetail = ClientDetail(profile: ClientProfile, purchases: map<Id, Purchase>)

  /** `findOne` (and `findMe`): the profile with the client's purchases, or NotFound. */
  function FindOne(clients: map<Id, Client>, purchases: map<Id, Purchase>, id: Id): (r: Result<ClientDetail>)
    ensures r.Ok? <==> id in clients
    ensures r.Err? ==> r.error == ClientNotFound
    ensures r.Ok? ==> r.value.profile == Profile(clients[id])
                      && forall k :: k in r.value.purchases <==> k in purchases && purchases[k].clientId == id
  {
    if id !in clients then Err(ClientNotFound)
    else Ok(ClientDetail(Profile(clients[id]), PurchasesOf(purchases, id)))
  }

  /** `getClientPurchases`: Forbidden unless an admin or the client itself
      asks; the client is not looked up, so an unknown id gives no purchases
      rather than NotFound. */
  function ClientPurchases(purchases: map<Id, Purchase>, clientId: Id, currentUserId: Id, userType: string): (r: Result<map<Id, Purchase>>)
    ensures r.Err? <==> !MayActOn(currentUserId, userType, clientId)
    ensures r.Err? ==> r.error == NotOwnPurchases
    ensures r.Ok? ==> r.value == PurchasesOf(purchases, clientId)
  {
    if !MayActOn(currentUserId, userType, clientId) then Err(NotOwnPurchases)
    else Ok(PurchasesOf(purchases, clientId))
  }

  /** A client sees only its own purchases, and an admin sees any client's. */
  lemma PurchasesVisibleOnlyToOwnerOrAdmin(purchases: map<Id, Purchase>, clientId: Id, currentUserId: Id, userType: string)
    requires ClientPurchases(purchases, clientId, currentUserId, userType).Ok?
    ensures userType != "admin" ==> forall k :: k in ClientPurchases(purchases, clientId, currentUserId, userType).value ==>
              purchases[k].clientId == currentUserId
  {
  }

  datatype UpdateClientDto = UpdateClientDto(firstName: Option<string>, lastName: Option<string>, profileImage: Option<string>)

  /** The row `client.update` writes: the DTO's present fields, and the
      uploaded image when the upload produced a truthy URL. */
  function UpdatedClient(c: Client, dto: UpdateClientDto, uploaded: Option<string>): Client {
    c.(firstName := dto.firstName.GetOr(c.firstName),
       lastName := dto.lastName.GetOr(c.lastName),
       profileImage := ChosenImage(uploaded, if dto.profileImage.Some? then dto.profileImage else c.profileImage))
  }

  /** A profile update changes only names and image: e-mail, password and
      membership stay as they were. */
  lemma UpdateTouchesOnlyProfile(c: Client, dto: UpdateClientDto, uploaded: Option<string>)
    ensures var u := UpdatedClient(c, dto, uploaded);
            u == c.(firstName := u.firstName, lastName := u.lastName, profileImage := u.profileImage)
    ensures !Truthy(uploaded) && dto.profileImage.None? ==> UpdatedClient(c, dto, uploaded).profileImage == c.profileImage
  {
  }

  /** `update`: NotFound first, then Forbidden unless an admin or the client
      itself asks, then the upload; only then is the row rewritten. */
  method Update(db: Database, id: Id, dto: UpdateClientDto, currentUserId: Id, userType: string, image: Upload)
    returns (r: Result<ClientProfile>)
    requires db.Valid()
    modifies db
    ensures db.Valid()
    ensures db.admins == old(db.admins) && db.storeItems == old(db.storeItems) && db.purchases == old(db.purchases)
    ensures id !in old(db.clients) ==> r == Err(ClientNotFound) && db.clients == old(db.clients)
    ensures id in old(db.clients) && !MayActOn(currentUserId, userType, id) ==>
              r == Err(NotOwnProfile) && db.clients == old(db.clients)
    ensures id in old(db.clients) && MayActOn(currentUserId, userType, id) && image.UploadFailed? ==>
              r == Err(Internal(UploadFailedMessage)) && db.clients == old(db.clients)
    ensures id in old(db.clients) && MayActOn(currentUserId, userType, id) && !image.UploadFailed? ==>
              var u := UpdatedClient(old(db.clients)[id], dto, UploadUrl(image).value);
              db.clients == old(db.clients)[id := u] && r == Ok(Profile(u))
  {
    if id !in db.clients {
      return Err(ClientNotFound);
    }
    if userType != "admin" && currentUserId != id {
      return Err(NotOwnProfile);
    }
    var profileImageUrl :- UploadUrl(image);
    var updated := UpdatedClient(db.clients[id], dto, profileImageUrl);
    ReplaceClientKeepsTable(db.clients, id, updated);
    db.clients := db.clients[id := updated];
    return Ok(Profile(updated));
  }

  // ---- admin operations ----

  /** The dates and amount an admin records; an absent field is left as is. */
  datatype MembershipActivationDto = MembershipActivationDto(
    membershipDueDate: Option<int>, membershipPaidDate: Option<int>, amount: Option<real>)

  function OrKeep<T>(given: Option<T>, current: Option<T>): Option<T> {
    if given.Some? then given else current
  }

  /** `updateClientMembershipAsActive`: NotFound, or the client made ACTIVE
      with the given dates and last paid amount. */
  method UpdateClientMembershipAsActive(db: Database, clientId: Id, dto: MembershipActivationDto) returns (r: Result<ClientProfile>)
    requires db.Valid()
    modifies db
    ensures db.Valid()
    ensures db.admins == old(db.admins) && db.storeItems == old(db.storeItems) && db.purchases == old(db.purchases)
    ensures clientId !in old(db.clients) ==> r == Err(ClientNotFound) && db.clients == old(db.clients)
    ensures clientId in old(db.clients) ==>
              var c := old(db.clients)[clientId];
              var u := c.(membershipStatus := ACTIVE,
                          membershipDueDate := OrKeep(dto.membershipDueDate, c.membershipDueDate),
                          membershipPaidDate := OrKeep(dto.membershipPaidDate, c.membershipPaidDate),
                          membershipLastPaidAmount := OrKeep(dto.amount, c.membershipLastPaidAmount));
              db.clients == old(db.clients)[clientId := u] && r == Ok(Profile(u))
  {
    if clientId !in db.clients {
      return Err(ClientNotFound);
    }
    var c := db.clients[clientId];
    var updated := c.(membershipStatus := ACTIVE,
                      membershipDueDate := OrKeep(dto.membershipDueDate, c.membershipDueDate),
                      membershipPaidDate := OrKeep(dto.membershipPaidDate, c.membershipPaidDate),
                      membershipLastPaidAmount := OrKeep(dto.amount, c.membershipLastPaidAmount));
    ReplaceClientKeepsTable(db.clients, clientId, updated);
    db.clients := db.clients[clientId := updated];
    return Ok(Profile(updated));
  }

  /** `updateClientMembershipAsInactive` as written: NotFound, or the
      status set to ACTIVE (not INACTIVE), dates untouched. */
  method UpdateClientMembershipAsInactive(db: Database, clientId: Id) returns (r: Result<ClientProfile>)
    requires db.Valid()
    modifies db
    ensures db.Valid()
    ensures db.admins == old(db.admins) && db.storeItems == old(db.storeItems) && db.purchases == old(db.purchases)
    ensures clientId !in old(db.clients) ==> r == Err(ClientNotFound) && db.clients == old(db.clients)
    ensures clientId in old(db.clients) ==>
              var u := old(db.clients)[clientId].(membershipStatus := ACTIVE);
              db.clients == old(db.clients)[clientId := u] && r == Ok(Profile(u))
    ensures r.Ok? ==> r.value.membershipStatus == ACTIVE
  {
    if clientId !in db.clients {
      return Err(ClientNotFound);
    }
    var updated := db.clients[clientId].(membershipStatus := ACTIVE);
    ReplaceClientKeepsTable(db.clients, clientId, updated);
    db.clients := db.clients[clientId := updated];
    return Ok(Profile(updated));
  }

  /** `remove`: NotFound, or the row deleted and every other row kept. */
  method Remove(db: Database, id: Id) returns (r: Result<string>)
    requires db.Valid()
    modifies db
    ensures db.Valid()
    ensures db.admins == old(db.admins) && db.storeItems == old(db.storeItems) && db.purchases == old(db.purchases)
    ensures id !in old(db.clients) ==> r == Err(ClientNotFound) && db.clients == old(db.clients)
    ensures id in old(db.clients) ==> r == Ok(ClientDeletedMessage) && db.clients == old(db.clients) - {id}
    ensures id !in db.clients && forall k :: k in old(db.clients) && k != id ==> k in db.clients && db.clients[k] == old(db.clients)[k]
  {
    if id !in db.clients {
      return Err(ClientNotFound);
    }
    db.clients := db.clients - {id};
    return Ok(ClientDeletedMessage);
  }
}
